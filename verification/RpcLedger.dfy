/** The RPC engine's ledger of native turns: which Botmux attempt owns a native turn, and the
    one terminal callback each bound turn must get, over insertion-ordered maps of which two
    forget their oldest entry.

    Ids are tokens; None is the empty string. A callback does not re-enter the engine. */
module RpcLedger {
  import opened Prelude

  type Id = nat

  datatype Identity = Identity(turnId: Id, attempt: Option<nat>)

  datatype Status = Completed | Failed | Aborted | EngineDead | Stopped

  datatype Outcome = Outcome(status: Status, errorCode: Option<Id>)

  datatype Callback = Callback(identity: Identity, native: Id, outcome: Outcome)

  /** A pending request; only turn/start requests carry an identity. */
  datatype Request = Request(identity: Option<Identity>)

  const MEMORY: nat := 1024

  // Maps and sets of the program remember insertion order: entries, oldest first. `bound` is a
  // history variable: every binding a turn/start response has made.
  datatype Ledger = Ledger(
    owners: seq<(Id, Identity)>,
    nativeByOwner: map<Identity, Id>,
    retired: seq<Id>,
    deferred: seq<(Id, Outcome)>,
    pending: map<nat, Request>,
    nextId: nat,
    closed: bool,
    deadNotified: bool,
    callbacks: seq<Callback>,
    bound: seq<(Id, Identity)>)

  datatype Event =
    | Send(identity: Option<Identity>, sent: bool)
    | Response(request: nat, native: Option<Id>)
    | ErrorResponse(request: nat)
    | TimedOut(request: nat, fatal: bool)
    | Take(owner: Identity)
    | Terminal(ended: Id, outcome: Outcome)
    | TransportFails
    | Stop

  function InitialLedger(): Ledger {
    Ledger([], map[], [], [], map[], 1, false, false, [], [])
  }

  // ---- Ordered maps --------------------------------------------------------------------

  predicate Has<V(==)>(entries: seq<(Id, V)>, key: Id) {
    exists i | 0 <= i < |entries| :: entries[i].0 == key
  }

  function Find<V>(entries: seq<(Id, V)>, key: Id): Option<V> {
    if entries == [] then None else if entries[0].0 == key then Some(entries[0].1) else Find(entries[1..], key)
  }

  function Without<V>(entries: seq<(Id, V)>, key: Id): seq<(Id, V)> {
    if entries == [] then []
    else (if entries[0].0 == key then [] else [entries[0]]) + Without(entries[1..], key)
  }

  function Keys<V>(entries: seq<(Id, V)>): seq<Id> {
    if entries == [] then [] else [entries[0].0] + Keys(entries[1..])
  }

  function Recent<T>(entries: seq<T>): seq<T> {
    if |entries| > MEMORY then entries[1..] else entries
  }

  // ---- The ledger ------------------------------------------------------------------------

  function Defer(l: Ledger, native: Id, outcome: Outcome): Ledger {
    l.(deferred := Recent(if Has(l.deferred, native) then l.deferred else l.deferred + [(native, outcome)]))
  }

  /** emitTurnTerminal */
  function EmitTerminal(l: Ledger, native: Id, outcome: Outcome): Ledger {
    if native in l.retired then l
    else
      match Find(l.owners, native)
      case None => Defer(l, native, outcome)
      case Some(identity) =>
        l.(retired := Recent(l.retired + [native]), owners := Without(l.owners, native),
           callbacks := l.callbacks + [Callback(identity, native, outcome)])
  }

  function EmitAll(l: Ledger, natives: seq<Id>, outcome: Outcome): Ledger
    decreases |natives|
  {
    if natives == [] then l else EmitAll(EmitTerminal(l, natives[0], outcome), natives[1..], outcome)
  }

  predicate MayBind(l: Ledger, native: Id, identity: Identity) {
    && (Find(l.owners, native).Some? ==> Find(l.owners, native).value == identity)
    && (identity in l.nativeByOwner ==> l.nativeByOwner[identity] == native)
  }

  /** bindNativeTurn, when neither side is bound to another. */
  function Bind(l: Ledger, native: Id, identity: Identity): Ledger {
    var l1 := l.(owners := if native in l.retired || Has(l.owners, native) then l.owners else l.owners + [(native, identity)],
                 nativeByOwner := l.nativeByOwner[identity := native],
                 bound := if (native, identity) in l.bound then l.bound else l.bound + [(native, identity)]);
    match Find(l.deferred, native)
    case None => l1
    case Some(outcome) => EmitTerminal(l1.(deferred := Without(l.deferred, native)), native, outcome)
  }

  function FailAll(l: Ledger): Ledger {
    var l1 := l.(pending := map[]);
    if l.closed || l.deadNotified then l1
    else EmitAll(l1.(deadNotified := true), Keys(l.owners), Outcome(EngineDead, None))
  }

  function OnResponse(l: Ledger, request: nat, native: Option<Id>): Ledger {
    if request !in l.pending then l
    else
      var l1 := l.(pending := l.pending - {request});
      var identity := l.pending[request].identity;
      if identity.None? then l1
      else if native.None? || !MayBind(l1, native.value, identity.value) then FailAll(l1)
      else Bind(l1, native.value, identity.value)
  }

  predicate TurnPending(l: Ledger) {
    exists k | k in l.pending :: l.pending[k].identity.Some?
  }

  /** request: a second turn/start is refused; a frame is written only to an open socket. */
  function OnSend(l: Ledger, identity: Option<Identity>, sent: bool): Ledger {
    if identity.Some? && TurnPending(l) then l
    else if !sent || l.closed then l.(nextId := l.nextId + 1)
    else l.(nextId := l.nextId + 1, pending := l.pending[l.nextId := Request(identity)])
  }

  function OnTimeout(l: Ledger, request: nat, fatal: bool): Ledger {
    if request !in l.pending then l else if fatal then FailAll(l) else l.(pending := l.pending - {request})
  }

  function OnStop(l: Ledger): Ledger {
    if l.closed then l
    else FailAll(EmitAll(l.(closed := true), Keys(l.owners), Outcome(Stopped, None)).(deferred := []))
  }

  function Step(l: Ledger, e: Event): Ledger {
    match e
    case Send(identity, sent) => OnSend(l, identity, sent)
    case Response(request, native) => OnResponse(l, request, native)
    case ErrorResponse(request) => l.(pending := l.pending - {request})
    case TimedOut(request, fatal) => OnTimeout(l, request, fatal)
    case Take(owner) => l.(nativeByOwner := l.nativeByOwner - {owner})
    case Terminal(ended, outcome) => EmitTerminal(l, ended, outcome)
    case TransportFails => FailAll(l)
    case Stop => OnStop(l)
  }

  function Run(l: Ledger, events: seq<Event>): Ledger
    decreases |events|
  {
    if events == [] then l else Run(Step(l, events[0]), events[1..])
  }

  // ---- The engine, in place ------------------------------------------------------------------

  class RpcEngine {
    var turnOwners: seq<(Id, Identity)>
    var nativeTurnByOwner: map<Identity, Id>
    var terminalNativeTurns: seq<Id>
    var deferredUnownedTerminals: seq<(Id, Outcome)>
    var pending: map<nat, Request>
    var nextId: nat
    var closed: bool
    var deadNotified: bool
    /** The calls of onTurnTerminal so far. */
    var callbacks: seq<Callback>
    ghost var bound: seq<(Id, Identity)>

    ghost function View(): Ledger
      reads this
    {
      Ledger(turnOwners, nativeTurnByOwner, terminalNativeTurns, deferredUnownedTerminals, pending, nextId, closed,
             deadNotified, callbacks, bound)
    }

    constructor ()
      ensures View() == InitialLedger()
    {
      turnOwners, nativeTurnByOwner, terminalNativeTurns, deferredUnownedTerminals := [], map[], [], [];
      pending, nextId, closed, deadNotified, callbacks, bound := map[], 1, false, false, [], [];
    }

    method EmitTurnTerminal(native: Id, outcome: Outcome)
      modifies this`terminalNativeTurns, this`turnOwners, this`deferredUnownedTerminals, this`callbacks
      ensures View() == EmitTerminal(old(View()), native, outcome)
    {
      if native in terminalNativeTurns { return; }
      var identity := Find(turnOwners, native);
      if identity.None? {
        if !Has(deferredUnownedTerminals, native) {
          deferredUnownedTerminals := deferredUnownedTerminals + [(native, outcome)];
        }
        if |deferredUnownedTerminals| > MEMORY { deferredUnownedTerminals := deferredUnownedTerminals[1..]; }
        return;
      }
      terminalNativeTurns := terminalNativeTurns + [native];
      if |terminalNativeTurns| > MEMORY { terminalNativeTurns := terminalNativeTurns[1..]; }
      turnOwners := Without(turnOwners, native);
      callbacks := callbacks + [Callback(identity.value, native, outcome)];
    }

    method EmitAllTurnTerminals(outcome: Outcome)
      modifies this`terminalNativeTurns, this`turnOwners, this`deferredUnownedTerminals, this`callbacks
      ensures View() == EmitAll(old(View()), Keys(old(turnOwners)), outcome)
    {
      var natives := Keys(turnOwners);
      var k := 0;
      while k < |natives|
        invariant k <= |natives|
        invariant EmitAll(View(), natives[k..], outcome) == EmitAll(old(View()), natives, outcome)
      {
        assert natives[k..][1..] == natives[k + 1..];
        EmitTurnTerminal(natives[k], outcome);
        k := k + 1;
      }
    }

    method BindNativeTurn(native: Id, identity: Identity) returns (ok: bool)
      modifies this
      ensures ok == MayBind(old(View()), native, identity)
      ensures View() == if ok then Bind(old(View()), native, identity) else old(View())
    {
      hide EmitTerminal, Without, Has, Find;
      var existingOwner := Find(turnOwners, native);
      if existingOwner.Some? && existingOwner.value != identity { return false; }
      if identity in nativeTurnByOwner && nativeTurnByOwner[identity] != native { return false; }
      if native !in terminalNativeTurns && !Has(turnOwners, native) { turnOwners := turnOwners + [(native, identity)]; }
      nativeTurnByOwner := nativeTurnByOwner[identity := native];
      bound := if (native, identity) in bound then bound else bound + [(native, identity)];
      ReplayDeferred(native);
      return true;
    }

    /** A terminal that came before its turn was bound. */
    method ReplayDeferred(native: Id)
      modifies this`terminalNativeTurns, this`turnOwners, this`deferredUnownedTerminals, this`callbacks
      ensures View() == match Find(old(deferredUnownedTerminals), native)
                        case None => old(View())
                        case Some(outcome) =>
                          EmitTerminal(old(View()).(deferred := Without(old(deferredUnownedTerminals), native)), native, outcome)
    {
      var deferred := Find(deferredUnownedTerminals, native);
      if deferred.Some? {
        deferredUnownedTerminals := Without(deferredUnownedTerminals, native);
        EmitTurnTerminal(native, deferred.value);
      }
    }

    method TakeNativeTurnId(owner: Identity) returns (native: Option<Id>)
      modifies this`nativeTurnByOwner
      ensures native == if owner in old(nativeTurnByOwner) then Some(old(nativeTurnByOwner)[owner]) else None
      ensures View() == Step(old(View()), Take(owner))
    {
      native := if owner in nativeTurnByOwner then Some(nativeTurnByOwner[owner]) else None;
      nativeTurnByOwner := nativeTurnByOwner - {owner};
    }

    method FailAllPending()
      modifies this
      ensures View() == FailAll(old(View()))
    {
      pending := map[];
      if !closed && !deadNotified {
        deadNotified := true;
        EmitAllTurnTerminals(Outcome(EngineDead, None));
      }
    }

    method OnMessageResponse(request: nat, native: Option<Id>)
      modifies this
      ensures View() == OnResponse(old(View()), request, native)
    {
      if request !in pending { return; }
      var identity := pending[request].identity;
      pending := pending - {request};
      if identity.None? { return; }
      var ok := false;
      if native.Some? { ok := BindNativeTurn(native.value, identity.value); }
      if !ok { FailAllPending(); }
    }

    method StopEngine()
      modifies this
      ensures View() == OnStop(old(View()))
    {
      if closed { return; }
      closed := true;
      EmitAllTurnTerminals(Outcome(Stopped, None));
      deferredUnownedTerminals := [];
      FailAllPending();
    }
  }

  // ---- What every run keeps ---------------------------------------------------------------------

  predicate Called(callbacks: seq<Callback>, native: Id) {
    exists i | 0 <= i < |callbacks| :: callbacks[i].native == native
  }

  predicate DistinctKeys<V>(entries: seq<(Id, V)>) {
    forall j, k | 0 <= j < k < |entries| :: entries[j].0 != entries[k].0
  }

  /** Each bound turn is either still owned, or has had its one callback. */
  predicate Sound(l: Ledger) {
    && DistinctKeys(l.bound)
    && DistinctKeys(l.owners)
    && (forall e | e in l.owners :: e in l.bound)
    && (forall c | c in l.callbacks :: (c.native, c.identity) in l.bound)
    && (forall j, k | 0 <= j < k < |l.callbacks| :: l.callbacks[j].native != l.callbacks[k].native)
    && (forall e | e in l.bound :: e in l.owners <==> !Called(l.callbacks, e.0))
    && (forall n | n in l.retired :: Called(l.callbacks, n))
    && (l.closed ==> l.owners == [] && l.pending == map[])
    && |l.retired| <= MEMORY && |l.deferred| <= MEMORY
  }

  /** The app-server never answers two turn/start requests with the same native turn. */
  predicate FreshResponse(l: Ledger, e: Event) {
    e.Response? && e.native.Some? && e.request in l.pending && l.pending[e.request].identity.Some?
    ==> !Has(l.bound, e.native.value)
  }

  predicate FreshResponses(l: Ledger, events: seq<Event>)
    decreases |events|
  {
    events == [] || (FreshResponse(l, events[0]) && FreshResponses(Step(l, events[0]), events[1..]))
  }

  lemma {:induction false} FindIsMember<V>(entries: seq<(Id, V)>, key: Id)
    ensures Find(entries, key).Some? ==> (key, Find(entries, key).value) in entries
    ensures Find(entries, key).None? ==> forall i | 0 <= i < |entries| :: entries[i].0 != key
  {
    if entries != [] && entries[0].0 != key { FindIsMember(entries[1..], key); }
  }

  lemma {:induction false} WithoutDropsKey(owners: seq<(Id, Identity)>, key: Id)
    ensures forall e :: e in Without(owners, key) <==> e in owners && e.0 != key
    ensures DistinctKeys(owners) ==> DistinctKeys(Without(owners, key))
  {
    if owners != [] {
      assert owners == [owners[0]] + owners[1..];
      WithoutDropsKey(owners[1..], key);
      if DistinctKeys(owners) {
        var rest := Without(owners[1..], key);
        forall k | 0 <= k < |rest| ensures rest[k].0 != owners[0].0 {
          assert rest[k] in rest;
          MemberHasIndex(owners[1..], rest[k]);
        }
      }
    }
  }

  lemma MemberHasIndex<V>(entries: seq<(Id, V)>, e: (Id, V))
    requires e in entries
    ensures exists i | 0 <= i < |entries| :: entries[i] == e
  {}

  lemma {:induction false} KeysAreFirsts<V>(entries: seq<(Id, V)>)
    ensures |Keys(entries)| == |entries| && forall i | 0 <= i < |entries| :: Keys(entries)[i] == entries[i].0
  {
    if entries != [] { KeysAreFirsts(entries[1..]); }
  }

  lemma {:induction false} WithoutShrinks(entries: seq<(Id, Outcome)>, key: Id)
    ensures |Without(entries, key)| <= |entries|
  {
    if entries != [] { WithoutShrinks(entries[1..], key); }
  }

  /** Delivering a terminal to its owner. */
  lemma DeliverSound(l: Ledger, native: Id, identity: Identity, outcome: Outcome)
    requires Sound(l) && (native, identity) in l.owners
    ensures Sound(l.(retired := Recent(l.retired + [native]), owners := Without(l.owners, native),
                     callbacks := l.callbacks + [Callback(identity, native, outcome)]))
  {
    WithoutDropsKey(l.owners, native);
    var callbacks := l.callbacks + [Callback(identity, native, outcome)];
    assert forall n :: Called(callbacks, n) <==> Called(l.callbacks, n) || n == native by {
      assert callbacks[|l.callbacks|].native == native;
      assert forall i | 0 <= i < |l.callbacks| :: callbacks[i] == l.callbacks[i];
    }
    assert !Called(l.callbacks, native);
    assert forall n | n in Recent(l.retired + [native]) :: n in l.retired || n == native;
  }

  lemma EmitTerminalSound(l: Ledger, native: Id, outcome: Outcome)
    requires Sound(l)
    ensures var l' := EmitTerminal(l, native, outcome);
            && Sound(l') && l'.bound == l.bound && l'.closed == l.closed && l'.pending == l.pending
            && (forall e :: e in l'.owners <==> e in l.owners && e.0 != native)
            && l.callbacks <= l'.callbacks
  {
    FindIsMember(l.owners, native);
    if native in l.retired {
      assert Called(l.callbacks, native);
      assert forall e | e in l.owners :: e.0 != native;
    } else if Find(l.owners, native).Some? {
      DeliverSound(l, native, Find(l.owners, native).value, outcome);
      WithoutDropsKey(l.owners, native);
    }
  }

  lemma {:induction false} EmitAllSound(l: Ledger, natives: seq<Id>, outcome: Outcome)
    requires Sound(l)
    ensures var l' := EmitAll(l, natives, outcome);
            && Sound(l') && l'.bound == l.bound && l'.closed == l.closed && l'.pending == l.pending
            && (forall e :: e in l'.owners <==> e in l.owners && e.0 !in natives)
            && l.callbacks <= l'.callbacks
    decreases |natives|
  {
    if natives != [] {
      EmitTerminalSound(l, natives[0], outcome);
      EmitAllSound(EmitTerminal(l, natives[0], outcome), natives[1..], outcome);
    }
  }

  lemma OwnersGone(l: Ledger, l': Ledger)
    requires forall e :: e in l'.owners <==> e in l.owners && e.0 !in Keys(l.owners)
    ensures l'.owners == []
  {
    KeysAreFirsts(l.owners);
    if l'.owners != [] {
      var e := l'.owners[0];
      assert e in l'.owners;
      MemberHasIndex(l.owners, e);
    }
  }

  lemma FailAllSound(l: Ledger)
    requires Sound(l)
    ensures Sound(FailAll(l)) && FailAll(l).bound == l.bound && l.callbacks <= FailAll(l).callbacks
    ensures FailAll(l).closed == l.closed
  {
    EmitAllSound(l.(pending := map[], deadNotified := true), Keys(l.owners), Outcome(EngineDead, None));
  }

  /** A fresh binding takes ownership, and an early terminal of that turn is replayed at once. */
  lemma BindSound(l: Ledger, native: Id, identity: Identity)
    requires Sound(l) && !l.closed && !Has(l.bound, native) && MayBind(l, native, identity)
    ensures Sound(Bind(l, native, identity)) && l.callbacks <= Bind(l, native, identity).callbacks
    ensures Bind(l, native, identity).bound == l.bound + [(native, identity)]
    ensures Find(l.deferred, native).Some? ==>
              Bind(l, native, identity).callbacks == l.callbacks + [Callback(identity, native, Find(l.deferred, native).value)]
  {
    NotCalledYet(l, native);
    var e := (native, identity);
    assert e !in l.bound;
    var l1 := l.(owners := l.owners + [e], nativeByOwner := l.nativeByOwner[identity := native], bound := l.bound + [e]);
    TakesOwnership(l, l1, e);
    WithoutShrinks(l.deferred, native);
    if Find(l.deferred, native).Some? {
      var l2 := l1.(deferred := Without(l.deferred, native));
      EmitTerminalSound(l2, native, Find(l.deferred, native).value);
      FindsOwner(l.owners, e);
    }
  }

  lemma {:induction false} FindsOwner(owners: seq<(Id, Identity)>, e: (Id, Identity))
    requires forall i | 0 <= i < |owners| :: owners[i].0 != e.0
    ensures Find(owners + [e], e.0) == Some(e.1)
  {
    if owners != [] {
      assert (owners + [e])[1..] == owners[1..] + [e];
      FindsOwner(owners[1..], e);
    }
  }

  /** An id no response has bound is neither owned, nor retired, nor called back. */
  lemma NotCalledYet(l: Ledger, native: Id)
    requires Sound(l) && !Has(l.bound, native)
    ensures !Called(l.callbacks, native) && native !in l.retired && !Has(l.owners, native)
    ensures forall i | 0 <= i < |l.owners| :: l.owners[i].0 != native
  {
    if i :| 0 <= i < |l.callbacks| && l.callbacks[i].native == native {
      assert l.callbacks[i] in l.callbacks;
      MemberHasIndex(l.bound, (native, l.callbacks[i].identity));
    }
    forall i | 0 <= i < |l.owners| ensures l.owners[i].0 != native {
      assert l.owners[i] in l.owners;
      MemberHasIndex(l.bound, l.owners[i]);
    }
  }

  lemma TakesOwnership(l: Ledger, l1: Ledger, e: (Id, Identity))
    requires Sound(l) && !l.closed && !Has(l.bound, e.0) && !Called(l.callbacks, e.0)
    requires forall i | 0 <= i < |l.owners| :: l.owners[i].0 != e.0
    requires l1 == l.(owners := l.owners + [e], nativeByOwner := l1.nativeByOwner, bound := l.bound + [e])
    ensures Sound(l1)
  {}

  lemma StepSound(l: Ledger, e: Event)
    requires Sound(l) && FreshResponse(l, e)
    ensures Sound(Step(l, e)) && l.callbacks <= Step(l, e).callbacks && l.bound <= Step(l, e).bound
  {
    match e {
      case Response(request, native) =>
        if request in l.pending && l.pending[request].identity.Some? {
          var l1 := l.(pending := l.pending - {request});
          var identity := l.pending[request].identity.value;
          if native.None? || !MayBind(l1, native.value, identity) {
            FailAllSound(l1);
          } else {
            BindSound(l1, native.value, identity);
          }
        }
      case TimedOut(request, fatal) => FailAllSound(l);
      case Terminal(ended, outcome) => EmitTerminalSound(l, ended, outcome);
      case TransportFails => FailAllSound(l);
      case Stop => StopSound(l);
      case _ =>
    }
  }

  lemma StopSound(l: Ledger)
    requires Sound(l)
    ensures Sound(OnStop(l)) && l.callbacks <= OnStop(l).callbacks && OnStop(l).bound == l.bound && OnStop(l).closed
  {
    if !l.closed {
      var natives := Keys(l.owners);
      var stopped := Outcome(Stopped, None);
      EmitAllSound(l, natives, stopped);
      CloseCommutes(l, natives, stopped);
      OwnersGone(l, EmitAll(l, natives, stopped));
    }
  }

  /** Emitting does not look at the closed flag. */
  lemma {:induction false} CloseCommutes(l: Ledger, natives: seq<Id>, outcome: Outcome)
    ensures EmitAll(l.(closed := true), natives, outcome) == EmitAll(l, natives, outcome).(closed := true)
    decreases |natives|
  {
    if natives != [] {
      assert EmitTerminal(l.(closed := true), natives[0], outcome) == EmitTerminal(l, natives[0], outcome).(closed := true);
      CloseCommutes(EmitTerminal(l, natives[0], outcome), natives[1..], outcome);
    }
  }

  lemma {:induction false} RunSound(l: Ledger, events: seq<Event>)
    requires Sound(l) && FreshResponses(l, events)
    ensures Sound(Run(l, events)) && l.callbacks <= Run(l, events).callbacks && l.bound <= Run(l, events).bound
    decreases |events|
  {
    if events != [] {
      StepSound(l, events[0]);
      RunSound(Step(l, events[0]), events[1..]);
    }
  }

  // ---- What the engine promises -------------------------------------------------------------------

  /** On every run with fresh responses, whatever was forgotten: a native turn gets at most
      one callback, and always under the identity its response bound it to. */
  lemma AtMostOneCallback(events: seq<Event>, j: nat, k: nat)
    requires FreshResponses(InitialLedger(), events)
    requires j < |Run(InitialLedger(), events).callbacks| && k < |Run(InitialLedger(), events).callbacks|
    ensures var l := Run(InitialLedger(), events);
            && (l.callbacks[j].native == l.callbacks[k].native ==> j == k)
            && (l.callbacks[j].native, l.callbacks[j].identity) in l.bound
            && forall i | (l.callbacks[j].native, i) in l.bound :: i == l.callbacks[j].identity
  {
    RunSound(InitialLedger(), events);
    var l := Run(InitialLedger(), events);
    assert l.callbacks[j] in l.callbacks;
    forall i | (l.callbacks[j].native, i) in l.bound ensures i == l.callbacks[j].identity {
      MemberHasIndex(l.bound, (l.callbacks[j].native, i));
      MemberHasIndex(l.bound, (l.callbacks[j].native, l.callbacks[j].identity));
    }
  }

  /** Once stopped, every native turn any response ever bound has had its one callback. */
  lemma StopSettlesEveryTurn(events: seq<Event>, e: (Id, Identity))
    requires FreshResponses(InitialLedger(), events) && Run(InitialLedger(), events).closed
    requires e in Run(InitialLedger(), events).bound
    ensures var l := Run(InitialLedger(), events);
            exists i | 0 <= i < |l.callbacks| :: l.callbacks[i].native == e.0 && l.callbacks[i].identity == e.1
  {
    RunSound(InitialLedger(), events);
    var l := Run(InitialLedger(), events);
    assert Called(l.callbacks, e.0);
    var i :| 0 <= i < |l.callbacks| && l.callbacks[i].native == e.0;
    assert l.callbacks[i] in l.callbacks;
    MemberHasIndex(l.bound, e);
    MemberHasIndex(l.bound, (e.0, l.callbacks[i].identity));
  }

  lemma {:induction false} EmitAllReports(l: Ledger, natives: seq<Id>, outcome: Outcome, e: (Id, Identity))
    requires Sound(l) && e in l.owners && e.0 in natives
    ensures Callback(e.1, e.0, outcome) in EmitAll(l, natives, outcome).callbacks
    decreases |natives|
  {
    var l1 := EmitTerminal(l, natives[0], outcome);
    EmitTerminalSound(l, natives[0], outcome);
    EmitAllSound(l1, natives[1..], outcome);
    if natives[0] == e.0 {
      OwnedIsReported(l, e, outcome);
      assert Callback(e.1, e.0, outcome) in l1.callbacks;
    } else {
      EmitAllReports(l1, natives[1..], outcome, e);
    }
  }

  lemma OwnedIsReported(l: Ledger, e: (Id, Identity), outcome: Outcome)
    requires Sound(l) && e in l.owners
    ensures EmitTerminal(l, e.0, outcome).callbacks == l.callbacks + [Callback(e.1, e.0, outcome)]
  {
    FindIsMember(l.owners, e.0);
    MemberHasIndex(l.owners, e);
    assert !Called(l.callbacks, e.0);
    if Find(l.owners, e.0).Some? { MemberHasIndex(l.owners, (e.0, Find(l.owners, e.0).value)); }
  }

  /** Whoever still owns a native turn when the engine dies or stops is told which of the two
      it was, under the owner's identity. */
  lemma TeardownReportsOwners(l: Ledger, e: (Id, Identity))
    requires Sound(l) && !l.closed && e in l.owners
    ensures Callback(e.1, e.0, Outcome(Stopped, None)) in OnStop(l).callbacks
    ensures !l.deadNotified ==> Callback(e.1, e.0, Outcome(EngineDead, None)) in FailAll(l).callbacks
  {
    KeysAreFirsts(l.owners);
    MemberHasIndex(l.owners, e);
    assert e.0 in Keys(l.owners);
    EmitAllReports(l, Keys(l.owners), Outcome(Stopped, None), e);
    CloseCommutes(l, Keys(l.owners), Outcome(Stopped, None));
    EmitAllReports(l.(pending := map[], deadNotified := true), Keys(l.owners), Outcome(EngineDead, None), e);
  }

  /** Nothing a stopped engine still hears is called back. */
  lemma StoppedIsSilent(l: Ledger, e: Event)
    requires Sound(l) && l.closed
    ensures Step(l, e).callbacks == l.callbacks && Step(l, e).bound == l.bound && Step(l, e).closed
  {
    match e {
      case Terminal(ended, outcome) => FindIsMember(l.owners, ended);
      case _ =>
    }
  }

  /** What the bounded memory of retired turns is for, exactly: if a response repeated the
      binding of a turn already called back, a further terminal would be called back a second
      time just when the turn has been forgotten. */
  lemma ForgottenTurnIsCalledTwice(l: Ledger, native: Id, identity: Identity, outcome: Outcome)
    requires Sound(l) && Called(l.callbacks, native) && MayBind(l, native, identity) && (native, identity) in l.bound
    requires Find(l.deferred, native).None?
    ensures var l' := EmitTerminal(Bind(l, native, identity), native, outcome);
            |l'.callbacks| > |l.callbacks| <==> native !in l.retired
  {
    var e := (native, identity);
    assert e !in l.owners;
    forall i | 0 <= i < |l.owners| ensures l.owners[i].0 != native {
      assert l.owners[i] in l.owners;
      MemberHasIndex(l.bound, l.owners[i]);
      MemberHasIndex(l.bound, e);
    }
    FindsOwner(l.owners, e);
  }

  // ---- When the engine dies -------------------------------------------------------------------------

  /** A turn/start was answered without a native turn, with one that another attempt owns, or for an
      attempt that already has another one. */
  predicate Refused(l: Ledger, native: Option<Id>, identity: Identity) {
    || native.None?
    || (exists e :: e in l.owners && e.0 == native.value && e.1 != identity)
    || (identity in l.nativeByOwner && l.nativeByOwner[identity] != native.value)
  }

  /** Nothing is pending or owned any more, and every owner, and nobody else, was told the engine died. */
  predicate Dies(l: Ledger, l': Ledger) {
    && l'.deadNotified && l'.pending == map[] && l'.owners == [] && l'.bound == l.bound
    && l.callbacks <= l'.callbacks
    && (forall e | e in l.owners :: Callback(e.1, e.0, Outcome(EngineDead, None)) in l'.callbacks)
    && (forall k | |l.callbacks| <= k < |l'.callbacks| ::
          l'.callbacks[k].outcome == Outcome(EngineDead, None)
          && (l'.callbacks[k].native, l'.callbacks[k].identity) in l.owners)
  }

  lemma OtherOwnerRefuses(l: Ledger, native: Id, identity: Identity)
    requires Sound(l)
    ensures MayBind(l, native, identity) <==> !Refused(l, Some(native), identity)
  {
    FindIsMember(l.owners, native);
    if e :| e in l.owners && e.0 == native && e.1 != identity {
      MemberHasIndex(l.owners, e);
      if Find(l.owners, native).Some? { MemberHasIndex(l.owners, (native, Find(l.owners, native).value)); }
    }
  }

  lemma {:induction false} EmitAllTellsOwners(l: Ledger, natives: seq<Id>, outcome: Outcome)
    requires Sound(l)
    ensures var l' := EmitAll(l, natives, outcome);
            && l.callbacks <= l'.callbacks && l'.deadNotified == l.deadNotified
            && l'.nativeByOwner == l.nativeByOwner
            && forall k | |l.callbacks| <= k < |l'.callbacks| ::
                 l'.callbacks[k].outcome == outcome && (l'.callbacks[k].native, l'.callbacks[k].identity) in l.owners
    decreases |natives|
  {
    if natives != [] {
      var l1 := EmitTerminal(l, natives[0], outcome);
      EmitTerminalSound(l, natives[0], outcome);
      FindIsMember(l.owners, natives[0]);
      EmitAllTellsOwners(l1, natives[1..], outcome);
    }
  }

  lemma FailAllDies(l: Ledger)
    requires Sound(l) && !l.closed && !l.deadNotified
    ensures Dies(l, FailAll(l))
  {
    hide Sound;
    var l1 := l.(pending := map[], deadNotified := true);
    var natives := Keys(l.owners);
    OpenStaysSound(l, l1);
    EmitAllSound(l1, natives, Outcome(EngineDead, None));
    EmitAllTellsOwners(l1, natives, Outcome(EngineDead, None));
    OwnersGone(l, FailAll(l));
    forall e | e in l.owners ensures Callback(e.1, e.0, Outcome(EngineDead, None)) in FailAll(l).callbacks {
      TeardownReportsOwners(l, e);
    }
  }

  lemma OpenStaysSound(l: Ledger, l1: Ledger)
    requires Sound(l) && l1 == l.(pending := map[], deadNotified := true)
    ensures Sound(l1)
  {}

  lemma BindLives(l: Ledger, native: Id, identity: Identity)
    ensures var l' := Bind(l, native, identity);
            && l'.deadNotified == l.deadNotified && l'.closed == l.closed && l'.pending == l.pending
            && l'.nativeByOwner == l.nativeByOwner[identity := native] && (native, identity) in l'.bound
  {
    hide Find, Without;
  }

  /** A turn/start response kills the engine exactly if it is refused; otherwise the attempt holds the
      native turn it names, and no other request or attempt is touched. */
  lemma ResponseVerdict(l: Ledger, request: nat, native: Option<Id>)
    requires Sound(l) && !l.closed && !l.deadNotified
    requires request in l.pending && l.pending[request].identity.Some?
    ensures var identity, l' := l.pending[request].identity.value, Step(l, Response(request, native));
            && (l'.deadNotified <==> Refused(l, native, identity))
            && (l'.deadNotified ==> Dies(l, l'))
            && (!l'.deadNotified ==>
                && l'.pending == l.pending - {request}
                && l'.nativeByOwner == l.nativeByOwner[identity := native.value]
                && (native.value, identity) in l'.bound)
  {
    hide Sound, Dies, FailAll, Bind, MayBind;
    var l1 := l.(pending := l.pending - {request});
    var identity := l.pending[request].identity.value;
    RequestGoneSound(l, request);
    if native.Some? {
      OtherOwnerRefuses(l1, native.value, identity);
      BindLives(l1, native.value, identity);
    }
    FailAllDies(l1);
    SameDeath(l, l1, FailAll(l1));
  }

  lemma RequestGoneSound(l: Ledger, request: nat)
    requires Sound(l) && !l.closed
    ensures Sound(l.(pending := l.pending - {request}))
  {}

  lemma SameDeath(l: Ledger, l1: Ledger, l': Ledger)
    requires Dies(l1, l') && l1.owners == l.owners && l1.callbacks == l.callbacks && l1.bound == l.bound
    ensures Dies(l, l') && l'.deadNotified
  {}

  /** The events on which the engine dies. */
  predicate Kills(l: Ledger, e: Event) {
    match e
    case Response(request, native) =>
      && request in l.pending && l.pending[request].identity.Some?
      && Refused(l, native, l.pending[request].identity.value)
    case TimedOut(request, fatal) => request in l.pending && fatal
    case TransportFails => true
    case _ => false
  }

  /** Over all events: a live engine dies exactly by a lost transport, a fatal timeout or a refused
      response, and then every owner is told; else nothing but the request answered leaves. */
  lemma EngineDiesExactly(l: Ledger, e: Event)
    requires Sound(l) && !l.closed && !l.deadNotified
    ensures var l' := Step(l, e);
            && (l'.deadNotified <==> Kills(l, e))
            && (l'.deadNotified ==> Dies(l, l'))
            && (!l'.deadNotified && !e.Stop? ==>
                forall k | k in l.pending && !(e.Response? && k == e.request) && !(e.ErrorResponse? && k == e.request)
                           && !(e.TimedOut? && k == e.request) :: k in l'.pending && (l'.pending[k] == l.pending[k] || k == l.nextId))
  {
    hide Sound, Dies, FailAll, EmitTerminal, EmitAll;
    match e {
      case Response(request, native) =>
        if request in l.pending && l.pending[request].identity.Some? { ResponseVerdict(l, request, native); }
      case TimedOut(request, fatal) => FailAllDies(l);
      case TransportFails => FailAllDies(l);
      case Terminal(ended, outcome) => TerminalLives(l, ended, outcome);
      case Stop => StopIsNoDeath(l);
      case _ =>
    }
    FailAllDies(l);
    DeathIsNoted(l, FailAll(l));
  }

  lemma DeathIsNoted(l: Ledger, l': Ledger)
    requires Dies(l, l')
    ensures l'.deadNotified
  {}

  lemma TerminalLives(l: Ledger, native: Id, outcome: Outcome)
    ensures EmitTerminal(l, native, outcome).deadNotified == l.deadNotified
    ensures EmitTerminal(l, native, outcome).pending == l.pending
  {
    hide Find, Without;
  }

  lemma StopIsNoDeath(l: Ledger)
    requires Sound(l) && !l.closed
    ensures OnStop(l).deadNotified == l.deadNotified && OnStop(l).pending == map[]
  {
    hide Sound, EmitAll;
    CloseCommutes(l, Keys(l.owners), Outcome(Stopped, None));
    EmitAllTellsOwners(l, Keys(l.owners), Outcome(Stopped, None));
  }

  // ---- A terminal notification --------------------------------------------------------------------------

  /** A terminal reaches the owner of its native turn, once and with its own outcome. Without an owner
      nobody is called: the first terminal of a turn not yet seen to end is kept for its binding, and a
      turn that has ended is ignored. */
  lemma TerminalIsExact(l: Ledger, native: Id, outcome: Outcome)
    requires Sound(l)
    ensures var l' := Step(l, Terminal(native, outcome));
            && (forall identity | (native, identity) in l.owners ::
                  && l'.callbacks == l.callbacks + [Callback(identity, native, outcome)]
                  && (native, identity) !in l'.owners && native in l'.retired)
            && (!Has(l.owners, native) ==> l'.callbacks == l.callbacks && l'.owners == l.owners)
            && (!Has(l.owners, native) && native !in l.retired && !Has(l.deferred, native) ==> (native, outcome) in l'.deferred)
            && (Has(l.deferred, native) || native in l.retired ==> l'.deferred == l.deferred)
  {
    FindIsMember(l.owners, native);
    EmitTerminalSound(l, native, outcome);
    forall identity | (native, identity) in l.owners
      ensures Step(l, Terminal(native, outcome)).callbacks == l.callbacks + [Callback(identity, native, outcome)]
      ensures native in Step(l, Terminal(native, outcome)).retired
    {
      OwnedIsReported(l, (native, identity), outcome);
      OwnedIsRetired(l, (native, identity), outcome);
    }
    var grown := l.deferred + [(native, outcome)];
    assert grown[|l.deferred|] == (native, outcome);
    if |grown| > MEMORY { assert grown[1..][|l.deferred| - 1] == (native, outcome); }
  }

  lemma OwnedIsRetired(l: Ledger, e: (Id, Identity), outcome: Outcome)
    requires Sound(l) && e in l.owners
    ensures e.0 in EmitTerminal(l, e.0, outcome).retired
  {
    FindIsMember(l.owners, e.0);
    MemberHasIndex(l.owners, e);
    var grown := l.retired + [e.0];
    assert grown[|l.retired|] == e.0;
    if |grown| > MEMORY { assert grown[1..][|l.retired| - 1] == e.0; }
  }

  // ---- One turn/start at a time ----------------------------------------------------------------------------

  /** At most one turn/start is pending, and request ids are fresh. */
  predicate OneTurn(l: Ledger) {
    && (forall j, k | j in l.pending && k in l.pending && l.pending[j].identity.Some? && l.pending[k].identity.Some? :: j == k)
    && (forall k | k in l.pending :: k < l.nextId)
  }

  lemma {:induction false} EmitAllKeepsPending(l: Ledger, natives: seq<Id>, outcome: Outcome)
    ensures EmitAll(l, natives, outcome).pending == l.pending && EmitAll(l, natives, outcome).nextId == l.nextId
    decreases |natives|
  {
    if natives != [] { EmitAllKeepsPending(EmitTerminal(l, natives[0], outcome), natives[1..], outcome); }
  }

  lemma FailAllKeepsOneTurn(l: Ledger)
    ensures OneTurn(FailAll(l))
  {
    hide EmitAll;
    EmitAllKeepsPending(l.(pending := map[], deadNotified := true), Keys(l.owners), Outcome(EngineDead, None));
  }

  lemma StepKeepsOneTurn(l: Ledger, e: Event)
    requires OneTurn(l)
    ensures OneTurn(Step(l, e))
  {
    hide EmitAll, EmitTerminal, FailAll, Bind, MayBind;
    match e {
      case Response(request, native) =>
        if request in l.pending {
          var l1 := l.(pending := l.pending - {request});
          FailAllKeepsOneTurn(l1);
          if native.Some? && l.pending[request].identity.Some? { BindKeepsPending(l1, native.value, l.pending[request].identity.value); }
        }
      case TimedOut(_, _) => FailAllKeepsOneTurn(l);
      case Terminal(ended, outcome) => TerminalKeepsPending(l, ended, outcome);
      case TransportFails => FailAllKeepsOneTurn(l);
      case Stop =>
        FailAllKeepsOneTurn(EmitAll(l.(closed := true), Keys(l.owners), Outcome(Stopped, None)).(deferred := []));
      case _ =>
    }
  }

  lemma TerminalKeepsPending(l: Ledger, native: Id, outcome: Outcome)
    ensures var l' := EmitTerminal(l, native, outcome); l'.pending == l.pending && l'.nextId == l.nextId
  {
    hide Find, Without;
  }

  lemma BindKeepsPending(l: Ledger, native: Id, identity: Identity)
    ensures var l' := Bind(l, native, identity); l'.pending == l.pending && l'.nextId == l.nextId
  {
    hide Find, Without;
  }

  /** On every run at most one turn/start is pending, so a response can only be that of the turn the
      engine is waiting for. */
  lemma {:induction false} OneTurnAtATime(l: Ledger, events: seq<Event>)
    requires OneTurn(l)
    ensures OneTurn(Run(l, events))
    decreases |events|
  {
    if events != [] {
      StepKeepsOneTurn(l, events[0]);
      OneTurnAtATime(Step(l, events[0]), events[1..]);
    }
  }

  lemma OneTurnPending(events: seq<Event>, j: nat, k: nat)
    requires var l := Run(InitialLedger(), events);
             && j in l.pending && l.pending[j].identity.Some? && k in l.pending && l.pending[k].identity.Some?
    ensures j == k
  {
    OneTurnAtATime(InitialLedger(), events);
  }

  // ---- Requests and repeated bindings ------------------------------------------------------------------------

  /** A request becomes pending, under an id never used, exactly if its frame is written and it is no second
      turn/start; everything else goes on as it was. */
  lemma SendIsExact(l: Ledger, identity: Option<Identity>, sent: bool)
    requires OneTurn(l)
    ensures var l' := Step(l, Send(identity, sent));
            var second := identity.Some? && exists k :: k in l.pending && l.pending[k].identity.Some?;
            && l' == l.(pending := l'.pending, nextId := l'.nextId)
            && l.nextId <= l'.nextId && (l'.nextId == l.nextId <==> second)
            && (forall k | k in l.pending :: k in l'.pending && l'.pending[k] == l.pending[k])
            && (l'.pending != l.pending <==> sent && !l.closed && !second)
            && (l'.pending != l.pending ==>
                && l.nextId !in l.pending && l'.pending.Keys == l.pending.Keys + {l.nextId}
                && l'.pending[l.nextId] == Request(identity))
  {
    assert l.nextId !in l.pending;
    if sent && !l.closed && !(identity.Some? && TurnPending(l)) {
      assert l.nextId in Step(l, Send(identity, sent)).pending;
    }
  }

  /** An engine already reported dead reports nothing more when its transport fails again. */
  lemma DeadIsQuiet(l: Ledger)
    requires l.deadNotified
    ensures var l' := Step(l, TransportFails);
            l'.callbacks == l.callbacks && l'.owners == l.owners && l'.pending == map[]
  {}

  /** A response that repeats a binding changes nothing while the turn runs, and does not bring back a turn
      that has ended. */
  lemma RebindingIsHarmless(l: Ledger, native: Id, identity: Identity)
    requires Sound(l) && Find(l.deferred, native).None? && MayBind(l, native, identity)
    ensures (native, identity) in l.owners && identity in l.nativeByOwner ==> Bind(l, native, identity) == l
    ensures native in l.retired ==> Bind(l, native, identity).owners == l.owners
  {
    if (native, identity) in l.owners {
      MemberHasIndex(l.owners, (native, identity));
      assert Has(l.owners, native);
      if identity in l.nativeByOwner { assert l.nativeByOwner[identity := native] == l.nativeByOwner; }
    }
  }
}
