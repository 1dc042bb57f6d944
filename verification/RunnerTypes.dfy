/** State of the Codex App runner's ordered-steer driver.

    The runner is single-threaded; what interleaves are the continuations of its awaits
    and the handlers of app-server notifications. Each event of `Event` is one such
    uninterrupted piece of code, and `DrainPc` says where the one running drain loop
    (with the runTurn it called) is suspended. */
module RunnerTypes {
  import opened Prelude
  import opened NativeTurns

  /** Structured input sidecar; its client id is optional. */
  datatype Sidecar = Sidecar(clientId: Option<Id>)

  /** One queued input. `uid` stands for the object's identity. */
  datatype Input = Input(uid: nat, content: string, sidecar: Option<Sidecar>, replyId: Option<Id>, steerable: bool)

  /** An admitted input, with the client id sent to the app-server for it. */
  datatype Dispatch = Dispatch(input: Input, clientId: Option<Id>)

  datatype RequestKind = StartRequest | SteerRequest
  datatype Phase = Starting | Open | Closing | Fenced
  datatype Proof = ExactStarted | ExactCompleted | StartResponse | GoalSnapshot

  /** A history lookup. A single-root lookup may keep the turn pending; `armed` says that
      its deadline was set. `Done` is a finished lookup: the program never clears it. */
  datatype Lookup =
    | NoLookup
    | SingleLookup(keepPending: bool, armed: bool)
    | GroupLookup
    | Done

  /** Locals of runTurn: the turn it steers into, if any, and its two retry flags. */
  datatype RootRpc = RootRpc(expected: Option<Id>, structured: bool, capabilityRetried: bool, fellBack: bool)

  datatype Note =
    | Started(turnParam: Option<Id>, rec: NativeTurn)
    | Completed(turnParam: Option<Id>, rec: NativeTurn)
    | Delta(turnParam: Option<Id>, itemId: Id, text: string)
    | AgentItem(turnParam: Option<Id>, itemId: Id, finalAnswer: bool, text: string)
    | Progress(turnParam: Option<Id>)
    | TokenUsage(turnParam: Option<Id>, reading: Option<nat>)

  datatype Turn = Turn(
    epoch: nat,
    clientId: Option<Id>,
    kind: RequestKind,
    rpc: RootRpc,
    nativeId: Option<Id>,
    canonical: Option<Id>,
    proof: Option<Proof>,
    phase: Phase,
    accepted: seq<Dispatch>,
    requestAccepted: bool,
    startPending: bool,
    serverStarted: bool,
    steeringClosed: bool,
    completionSeen: bool,
    terminal: Option<NativeTurn>,
    pendingCompletions: seq<NativeTurn>,
    pendingNotes: seq<Note>,
    lookup: Lookup,
    conflictReported: bool,
    completed: bool,
    finalText: Answer,
    allAgentText: string,
    seenItems: set<Id>)

  /** The follow-up turn/steer in flight: whose turn sent it, the head it carries, its target. */
  datatype SteerRpc = SteerRpc(epoch: nat, dispatch: Dispatch, expected: Id)

  /** Token usage of one native turn; None once a malformed reading poisoned it. */
  type Usage = Option<nat>

  /** A final transaction. `input` is the dispatch it answers; on the wire only its reply id shows. */
  datatype Final = Final(
    input: Input, nativeId: Option<Id>, content: Answer, superseded: bool, usage: Option<nat>)

  /** Where the drain loop is suspended; `processing` is pc != Idle.
      Dequeued: shifted, in ensureThread. AwaitResponse / AwaitDone: in runTurn.
      Threw / Returned: runTurn is over, the loop has not resumed yet. */
  datatype DrainPc =
    | Idle
    | Dequeued(input: Input)
    | AwaitResponse
    | AwaitDone
    | Threw(message: string)
    | Returned

  /** What the installed codex supports. */
  datatype Config = Config(cleanInput: bool, clientIds: bool)

  datatype State = State(
    cfg: Config,
    queue: seq<Input>,
    pc: DrainPc,
    turn: Option<Turn>,
    epochs: nat,
    nativeActive: Option<Id>,
    steer: Option<SteerRpc>,
    fenced: bool,
    cleanUnsupported: bool,
    idleTimer: bool,
    usage: map<Id, Usage>,
    finals: seq<Final>,
    // The busy flags of the signed state markers, in order.
    published: seq<bool>,
    // History variables: every input received, and whether a follow-up steer was ever
    // admitted into a turn that another settlement path had already claimed.
    inbound: seq<Input>,
    overlapped: bool)

  /** An RPC failure: an error answer or a lost transport, and how its text classifies. */
  datatype Failure = Failure(rpc: bool, inactive: bool, capability: bool, definite: bool, message: string)

  datatype Event =
    | Framed(content: string, sidecar: Option<Sidecar>, replyId: Option<Id>, steerable: bool)
    | PlainLine(line: string)
    | ThreadReady
    | ThreadFailed(message: string)
    | RootResponse(responseId: Option<Id>)
    | RootError(failure: Failure)
    | SteerResponse(steeredId: Option<Id>)
    | SteerError(refusal: Failure)
    | Notify(note: Note)
    | HistoryScanned(candidates: seq<NativeTurn>, failed: bool, expired: bool)
    | TurnDone
    | DrainResumed
    | IdleTimerFired
    | ControlReaccepted

  function InitialState(cfg: Config): State {
    State(cfg, [], Idle, None, 0, None, None, false, false, false, map[], [], [false], [], false)
  }
}
