/** Where the first prompt of a session goes: into the RPC engine's turn/start frame, or onto
    the paste route (the pending queue, or the CLI's argument list) — and how often.

    Effects of the outside world (the app-server, the pane, the fence) are a script the
    caller supplies; the class runs the program against it and records each submission. */
module FirstPrompt {
  import opened Prelude

  /** Adapters that the RPC engine can drive, and the rest, which may take a prompt by argv. */
  datatype Cli = Codex | Traex | OtherCli(viaArgs: bool)

  datatype Runtime = NoOverride | LegacyPath | ConfiguredRuntime(pathMatches: bool)

  datatype Config = Config(
    rpcInput: bool, cli: Cli, tmux: bool, adopt: bool, readIsolation: bool, sandbox: bool, sandboxForced: bool,
    disableBypass: bool, startupCommands: bool, wrapper: bool, runtime: Runtime, pathOverride: bool,
    prompt: bool, resume: bool, sessionId: bool, deferred: bool)

  datatype Pane = NoLivePane | NativePane | RemotePane

  /** An awaited stage of the engagement and the fence check behind it. */
  datatype Stage = Passes | Throws | Superseded | EngineDied

  /** The fate of the turn/start frame: refused or unsendable, answered, or unanswered. */
  datatype Frame = NotDispatched | Acked(native: Option<nat>) | Unacked

  datatype Probe = Landed | NotLanded | ProbeFails

  datatype Liveness = LivePane | Gone | Unknown

  datatype Script = Script(
    pane: Pane, start: Stage, thread: Stage, frame: Frame, probe: Probe, fence: Stage, liveness: seq<Liveness>)

  datatype FirstOutcome = FirstAccepted(native: Option<nat>) | NotSent | FirstAmbiguous

  datatype Engagement = Accepted | Ambiguous | Resumed | NotEngaged | Aborted

  /** RpcInitDecision; Threw when the engagement itself aborted the init. */
  datatype Decision = Decision(engaged: bool, queuePrompt: bool, abortSpawn: bool) | Threw

  datatype Route = RpcFrame | Queue | Argv

  const NONE := Decision(false, false, false)
  const KILL_ATTEMPTS: nat := 4

  predicate WantsResume(cfg: Config) {
    cfg.resume && cfg.sessionId
  }

  predicate ViaArgs(cli: Cli) {
    cli.OtherCli? && cli.viaArgs
  }

  predicate RuntimeEligible(cfg: Config) {
    match cfg.runtime
    case ConfiguredRuntime(pathMatches) => cfg.pathOverride && pathMatches
    case LegacyPath => false
    case NoOverride => !cfg.pathOverride
  }

  /** codexRpcEligible */
  predicate Eligible(cfg: Config) {
    && cfg.rpcInput && !cfg.cli.OtherCli? && cfg.tmux
    && !cfg.adopt && !cfg.readIsolation && !cfg.sandbox && !cfg.sandboxForced
    && !cfg.disableBypass && !cfg.startupCommands && !cfg.wrapper && RuntimeEligible(cfg)
    && (cfg.prompt || WantsResume(cfg))
  }

  // ---- Specification ----------------------------------------------------------------------

  function FirstTurn(frame: Frame, probe: Probe): FirstOutcome {
    match frame
    case NotDispatched => NotSent
    case Acked(native) => FirstAccepted(native)
    case Unacked => if probe == Landed then FirstAccepted(None) else FirstAmbiguous
  }

  predicate Fresh(cfg: Config) {
    !WantsResume(cfg) && cfg.prompt
  }

  /** engageCodexRpc, with the mapping from not-sent to not-engaged. */
  function Engage(cfg: Config, w: Script): Engagement {
    if w.start == Superseded || (w.start == Passes && w.thread == Superseded) then Aborted
    else if w.start != Passes || w.thread != Passes then NotEngaged
    else if !Fresh(cfg) then Resumed
    else
      var first := FirstTurn(w.frame, w.probe);
      if w.fence == Superseded || (w.fence != Passes && first != NotSent) then Aborted
      else if w.fence != Passes || first == NotSent then NotEngaged
      else if first.FirstAccepted? then Accepted
      else Ambiguous
  }

  /** Whether the engagement gets as far as writing the frame to the socket. */
  predicate FrameLeaves(cfg: Config, w: Script) {
    w.start == Passes && w.thread == Passes && Fresh(cfg) && w.frame != NotDispatched
  }

  /** The answer of the i-th liveness probe; no answer is not proof of absence. */
  function ProbeAt(liveness: seq<Liveness>, i: nat): Liveness {
    if i < |liveness| then liveness[i] else Unknown
  }

  /** killAndVerifyPersistentPane: true only on an authoritative absence. */
  predicate VerifiedGone(liveness: seq<Liveness>) {
    exists i | 0 <= i <= KILL_ATTEMPTS :: ProbeAt(liveness, i) == Gone
  }

  predicate Attempts(cfg: Config, w: Script) {
    Eligible(cfg) && w.pane != NativePane
  }

  /** orchestrateCodexRpcInit */
  function Decide(cfg: Config, w: Script): Decision {
    if !Attempts(cfg, w) then NONE
    else
      var outcome := Engage(cfg, w);
      if outcome == Aborted then Threw
      else if w.pane == NoLivePane then
        if outcome == NotEngaged then NONE else Decision(true, outcome == Resumed, false)
      else if !VerifiedGone(w.liveness) then Decision(false, false, true)
      else if outcome == NotEngaged then NONE
      else Decision(true, true, false)
  }

  /** shouldQueueInitialPrompt */
  predicate Queues(prompt: bool, engineActive: bool, queuePrompt: bool, viaArgs: bool, deferred: bool) {
    prompt && (!engineActive || queuePrompt) && (!viaArgs || deferred)
  }

  /** The CLI is launched with the prompt among its arguments. A remote viewer never is. */
  predicate Bakes(prompt: bool, engineActive: bool, viaArgs: bool, deferred: bool) {
    prompt && !engineActive && viaArgs && !deferred
  }

  /** What the init submits after its decision. */
  function AfterDecision(cfg: Config, d: Decision): seq<Route> {
    if d.Threw? || d.abortSpawn then []
    else
      (if Bakes(cfg.prompt, d.engaged, ViaArgs(cfg.cli), cfg.deferred) then [Argv] else [])
      + (if Queues(cfg.prompt, d.engaged, d.queuePrompt, ViaArgs(cfg.cli), cfg.deferred) then [Queue] else [])
  }

  /** Every submission of the first prompt in one init, in order. */
  function Submitted(cfg: Config, w: Script): seq<Route> {
    (if Attempts(cfg, w) && FrameLeaves(cfg, w) then [RpcFrame] else []) + AfterDecision(cfg, Decide(cfg, w))
  }

  // ---- The program ------------------------------------------------------------------------------

  class SessionInit {
    const cfg: Config
    const world: Script
    var submissions: seq<Route>
    var engineActive: bool
    var kills: nat

    constructor (cfg: Config, world: Script)
      ensures this.cfg == cfg && this.world == world && submissions == [] && !engineActive && kills == 0
    {
      this.cfg, this.world, submissions, engineActive, kills := cfg, world, [], false, 0;
    }

    /** sendFirstTurn: only a frame that never left is safe to paste. */
    method SendFirstTurn() returns (outcome: FirstOutcome)
      modifies this`submissions
      ensures outcome == FirstTurn(world.frame, world.probe)
      ensures submissions == old(submissions) + if world.frame == NotDispatched then [] else [RpcFrame]
    {
      var dispatched := false;
      if world.frame != NotDispatched {
        submissions := submissions + [RpcFrame];
        dispatched := true;
      }
      if world.frame.Acked? { return FirstAccepted(world.frame.native); }
      if !dispatched { return NotSent; }
      var landed := false;
      if world.probe != ProbeFails { landed := world.probe == Landed; }
      return if landed then FirstAccepted(None) else FirstAmbiguous;
    }

    method EngageCodexRpc() returns (outcome: Engagement)
      modifies this`submissions, this`engineActive
      ensures outcome == Engage(cfg, world)
      ensures submissions == old(submissions) + if FrameLeaves(cfg, world) then [RpcFrame] else []
      ensures engineActive == (outcome == Accepted || outcome == Ambiguous || outcome == Resumed)
    {
      engineActive := false;
      var freshDeliveryOwned := false;
      if world.start == Superseded { return Aborted; }
      if world.start != Passes { return NotEngaged; }
      if world.thread == Superseded { return Aborted; }
      if world.thread != Passes { return NotEngaged; }
      outcome := Resumed;
      if !WantsResume(cfg) && cfg.prompt {
        var first := SendFirstTurn();
        freshDeliveryOwned := first != NotSent;
        if world.fence == Superseded { return Aborted; }
        if world.fence != Passes {
          // A delivery that may have executed is never handed to the paste route.
          return if freshDeliveryOwned then Aborted else NotEngaged;
        }
        if first == NotSent { return NotEngaged; }
        outcome := if first.FirstAccepted? then Accepted else Ambiguous;
      }
      engineActive := true;
    }

    method KillAndVerifyPane() returns (gone: bool)
      modifies this`kills
      ensures gone == VerifiedGone(world.liveness)
      ensures kills <= old(kills) + KILL_ATTEMPTS
    {
      var attempt := 0;
      while attempt < KILL_ATTEMPTS
        invariant attempt <= KILL_ATTEMPTS && kills == old(kills) + attempt
        invariant forall i | 0 <= i < attempt :: ProbeAt(world.liveness, i) != Gone
      {
        kills := kills + 1;
        if ProbeAt(world.liveness, attempt) == Gone { return true; }
        attempt := attempt + 1;
      }
      return ProbeAt(world.liveness, KILL_ATTEMPTS) == Gone;
    }

    method Orchestrate() returns (decision: Decision)
      requires !engineActive
      modifies this
      ensures decision == Decide(cfg, world)
      ensures submissions == old(submissions) + if Attempts(cfg, world) && FrameLeaves(cfg, world) then [RpcFrame] else []
      ensures decision.Decision? ==> engineActive == decision.engaged
    {
      if !Eligible(cfg) { return NONE; }
      if world.pane == NoLivePane {
        var outcome := EngageCodexRpc();
        match outcome {
          case Accepted => return Decision(true, false, false);
          case Ambiguous => return Decision(true, false, false);
          case Resumed => return Decision(true, true, false);
          case NotEngaged => return NONE;
          case Aborted => return Threw;
        }
      }
      if world.pane == RemotePane {
        var outcome := EngageCodexRpc();
        if outcome == Aborted { return Threw; }
        var gone := KillAndVerifyPane();
        if outcome == NotEngaged { return if gone then NONE else Decision(false, false, true); }
        if gone { return Decision(true, true, false); }
        engineActive := false;
        return Decision(false, false, true);
      }
      return NONE;
    }

    /** The worker's init: decide, spawn the CLI, queue the prompt. */
    method Init()
      requires submissions == [] && !engineActive
      modifies this
      ensures submissions == Submitted(cfg, world)
    {
      var decision := Orchestrate();
      if decision == Threw || decision.abortSpawn { return; }
      if Bakes(cfg.prompt, engineActive, ViaArgs(cfg.cli), cfg.deferred) { submissions := submissions + [Argv]; }
      if Queues(cfg.prompt, engineActive, decision.queuePrompt, ViaArgs(cfg.cli), cfg.deferred) {
        submissions := submissions + [Queue];
      }
    }
  }

  // ---- How often the prompt goes out --------------------------------------------------------------

  /** A session that is not a resume, although a pane of an earlier RPC incarnation lives on.
      The program's comments call such a pane "always a resume". */
  predicate OrphanedViewer(cfg: Config, w: Script) {
    Eligible(cfg) && !WantsResume(cfg) && w.pane == RemotePane
  }

  /** A frame whose delivery the program counts as its own, engaged to the end. */
  predicate FrameCounts(cfg: Config, w: Script) {
    FrameLeaves(cfg, w) && w.fence == Passes
  }

  /** The prompt is never submitted more than once, except in exactly one family of cases: a
      fresh prompt is sent by RPC, a surviving viewer pane is then replaced, and the prompt
      is queued as if the session were a resume. */
  lemma SubmittedTwiceExactly(cfg: Config, w: Script)
    ensures |Submitted(cfg, w)| <= 2
    ensures |Submitted(cfg, w)| == 2
       <==> OrphanedViewer(cfg, w) && FrameCounts(cfg, w) && VerifiedGone(w.liveness)
    ensures |Submitted(cfg, w)| == 2 ==> Submitted(cfg, w) == [RpcFrame, Queue]
  {}

  /** A fresh session with RPC input that finds the viewer pane of an earlier incarnation. */
  const FRESH := Config(true, Codex, true, false, false, false, false, false, false, false, NoOverride, false,
                        true, false, false, false)

  /** Its frame is answered, and the pane is gone at the first probe. */
  const REPLACED := Script(RemotePane, Passes, Passes, Acked(Some(0)), Landed, Passes, [Gone])

  /** One such session: the prompt leaves as a frame and is queued for the CLI as well. */
  lemma FreshPromptGoesTwice()
    ensures !WantsResume(FRESH) && Submitted(FRESH, REPLACED) == [RpcFrame, Queue]
  {
    assert ProbeAt(REPLACED.liveness, 0) == Gone;
    SubmittedTwiceExactly(FRESH, REPLACED);
  }

  /** At most once, then, for every session that is a resume or finds no viewer pane. */
  lemma SubmittedAtMostOnce(cfg: Config, w: Script)
    requires !OrphanedViewer(cfg, w)
    ensures |Submitted(cfg, w)| <= 1
  {
    SubmittedTwiceExactly(cfg, w);
  }

  /** The init gives up: its engagement threw, or a stale pane could not be replaced. */
  predicate GivesUp(cfg: Config, w: Script) {
    var d := Decide(cfg, w);
    d.Threw? || d.abortSpawn
  }

  /** Never lost without notice: a prompt that never left as a frame goes out exactly once by
      queue or argument list, unless the whole init gives up, and then not at all. */
  lemma UndispatchedGoesOutOnce(cfg: Config, w: Script)
    requires cfg.prompt && !(Attempts(cfg, w) && FrameLeaves(cfg, w))
    ensures Submitted(cfg, w) == (if GivesUp(cfg, w) then [] else if ViaArgs(cfg.cli) && !cfg.deferred then [Argv] else [Queue])
  {}

  /** Never resent: once the frame of a fresh session has left, whatever came back, that
      frame stays the only submission. */
  lemma DispatchedIsNeverResent(cfg: Config, w: Script)
    requires Attempts(cfg, w) && FrameLeaves(cfg, w) && !OrphanedViewer(cfg, w)
    ensures Submitted(cfg, w) == [RpcFrame]
  {}

  /** The init keeps an engine exactly when no frame is left in doubt by a paste. */
  lemma PasteMeansNoFrame(cfg: Config, w: Script)
    requires Decide(cfg, w) == NONE
    ensures !(Attempts(cfg, w) && FrameLeaves(cfg, w))
  {}

  /** Up to five probes are read, the last one after the last kill, and one answer of absence is enough. */
  lemma GoneExactly(liveness: seq<Liveness>)
    ensures VerifiedGone(liveness) <==> Gone in liveness[..if |liveness| < 5 then |liveness| else 5]
  {
    var read := liveness[..if |liveness| < 5 then |liveness| else 5];
    if VerifiedGone(liveness) {
      var i :| 0 <= i <= KILL_ATTEMPTS && ProbeAt(liveness, i) == Gone;
      assert read[i] == Gone;
    }
    forall i | 0 <= i < |read| && read[i] == Gone ensures ProbeAt(liveness, i) == Gone && i <= KILL_ATTEMPTS {}
  }

  // ---- What the init decides ------------------------------------------------------------------------

  /** The engagement is given up: its fence was lost while nothing, or a frame that may have been
      executed, was on its way. */
  predicate Interrupted(cfg: Config, w: Script) {
    || w.start == Superseded
    || (w.start == Passes && w.thread == Superseded)
    || (w.start == Passes && w.thread == Passes && Fresh(cfg)
        && (w.fence == Superseded || (w.fence != Passes && w.frame != NotDispatched)))
  }

  /** The engine is up, and a fresh prompt left as a frame. */
  predicate Engages(cfg: Config, w: Script) {
    w.start == Passes && w.thread == Passes && (Fresh(cfg) ==> w.fence == Passes && w.frame != NotDispatched)
  }

  /** The init gives up exactly if its engagement was interrupted or a stale viewer pane was not
      verified gone: no CLI is ever spawned onto such a pane. Otherwise the engine is kept exactly
      if it is up, and the prompt is queued behind it exactly for a resume or a replaced pane. */
  lemma DecisionIsExact(cfg: Config, w: Script)
    ensures GivesUp(cfg, w)
       <==> Attempts(cfg, w) && (Interrupted(cfg, w) || (w.pane == RemotePane && !VerifiedGone(w.liveness)))
    ensures !GivesUp(cfg, w) ==>
              var d := Decide(cfg, w);
              && (d.engaged <==> Attempts(cfg, w) && Engages(cfg, w))
              && (d.engaged ==> (d.queuePrompt <==> !Fresh(cfg) || w.pane == RemotePane))
              && (!d.engaged ==> !d.queuePrompt)
  {}

  /** The turn/start was answered, or its message is in the rollout. */
  predicate Confirmed(w: Script) {
    w.frame.Acked? || (w.frame == Unacked && w.probe == Landed)
  }

  /** A fresh prompt is reported as accepted exactly on evidence; one that left without any is
      reported as ambiguous, never as not sent; and only one that never left may be pasted. */
  lemma OutcomeIsHonest(cfg: Config, w: Script)
    requires Fresh(cfg) && w.start == Passes && w.thread == Passes && w.fence == Passes
    ensures Engage(cfg, w) == Accepted <==> Confirmed(w)
    ensures Engage(cfg, w) == Ambiguous <==> w.frame != NotDispatched && !Confirmed(w)
    ensures Engage(cfg, w) == NotEngaged <==> w.frame == NotDispatched
    ensures forall native :: FirstTurn(w.frame, w.probe) == FirstAccepted(Some(native)) <==> w.frame == Acked(Some(native))
  {}

  // ---- The engagement fence --------------------------------------------------------------------------

  datatype FenceState = FenceState(epoch: nat, deadEpoch: Option<nat>)

  datatype FenceOp = Begin | Invalidate | MarkDead(lease: nat)

  function Apply(f: FenceState, op: FenceOp): FenceState {
    match op
    case Begin => FenceState(f.epoch + 1, None)
    case Invalidate => FenceState(f.epoch + 1, None)
    case MarkDead(lease) => if lease == f.epoch then f.(deadEpoch := Some(lease)) else f
  }

  function ApplyAll(f: FenceState, ops: seq<FenceOp>): FenceState
    decreases |ops|
  {
    if ops == [] then f else ApplyAll(Apply(f, ops[0]), ops[1..])
  }

  predicate LiveLease(f: FenceState, lease: nat) {
    lease == f.epoch && f.deadEpoch != Some(lease)
  }

  class RpcEngagementFence {
    var epoch: nat
    var deadEpoch: Option<nat>

    function View(): FenceState
      reads this
    {
      FenceState(epoch, deadEpoch)
    }

    constructor ()
      ensures View() == FenceState(0, None)
    {
      epoch, deadEpoch := 0, None;
    }

    method BeginEngagement() returns (lease: nat)
      modifies this
      ensures View() == Apply(old(View()), Begin) && lease == View().epoch && LiveLease(View(), lease)
    {
      epoch := epoch + 1;
      deadEpoch := None;
      return epoch;
    }

    method InvalidateAll()
      modifies this
      ensures View() == Apply(old(View()), Invalidate)
    {
      epoch := epoch + 1;
      deadEpoch := None;
    }

    method OnDead(lease: nat)
      modifies this
      ensures View() == Apply(old(View()), MarkDead(lease))
    {
      if lease == epoch { deadEpoch := Some(lease); }
    }

    predicate IsLive(lease: nat)
      reads this
      ensures IsLive(lease) == LiveLease(View(), lease)
    {
      lease == epoch && deadEpoch != Some(lease)
    }
  }

  /** A lease may publish exactly as long as nothing superseded it and its own engine lives:
      deaths reported for any other lease, however late, neither harm nor revive it. */
  lemma {:induction false} LeaseLivesExactly(f: FenceState, ops: seq<FenceOp>)
    requires LiveLease(f, f.epoch)
    ensures LiveLease(ApplyAll(f, ops), f.epoch)
       <==> forall i | 0 <= i < |ops| :: ops[i].MarkDead? && ops[i].lease != f.epoch
    decreases |ops|
  {
    if ops != [] {
      assert forall i | 0 <= i < |ops[1..]| :: ops[1..][i] == ops[i + 1];
      if ops[0].MarkDead? && ops[0].lease != f.epoch {
        LeaseLivesExactly(f, ops[1..]);
      } else {
        LeaseStaysDead(Apply(f, ops[0]), f.epoch, ops[1..]);
      }
    }
  }

  lemma {:induction false} LeaseStaysDead(f: FenceState, lease: nat, ops: seq<FenceOp>)
    requires lease <= f.epoch && !LiveLease(f, lease)
    ensures !LiveLease(ApplyAll(f, ops), lease)
    decreases |ops|
  {
    if ops != [] { LeaseStaysDead(Apply(f, ops[0]), lease, ops[1..]); }
  }
}
