/** What every run of the runner guarantees: no input is lost, finals come in order, steering is safe. */
module RunnerRuns {
  import opened Prelude
  import opened NativeTurns
  import opened RunnerTypes
  import opened RunnerSteps
  import opened RunnerIdentity
  import opened RunnerInvariants

  // ---- Conservation ------------------------------------------------------------------

  /** The inputs a run delivers, numbered in order of arrival. */
  function Delivered(events: seq<Event>, from: nat): seq<Input> {
    if events == [] then []
    else
      match events[0]
      case Framed(content, sidecar, replyId, steerable) =>
        var reply := if replyId.Some? then replyId else if sidecar.Some? then sidecar.value.clientId else None;
        [Input(from, content, sidecar, reply, steerable)] + Delivered(events[1..], from + 1)
      case PlainLine(line) => [Input(from, line, None, None, false)] + Delivered(events[1..], from + 1)
      case _ => Delivered(events[1..], from)
  }

  lemma SteerResponseKeepsInbound(s: State, steeredId: Option<Id>)
    ensures OnSteerResponse(s, steeredId).inbound == s.inbound
  {
    if SteerAccepted(s, steeredId) { AfterJoinSteady(JoinGroup(s, s.steer.value), s.steer.value.epoch); }
  }

  lemma SteerErrorKeepsInbound(s: State, refusal: Failure)
    ensures OnSteerError(s, refusal).inbound == s.inbound
  {
    if s.turn.Some? { RouteHeldSteady(CloseSteering(s)); }
  }

  lemma StepInbound(s: State, e: Event)
    requires Identified(s) && !e.Framed? && !e.PlainLine?
    ensures Step(s, e).inbound == s.inbound
  {
    if IsLoopEvent(e) {
      LoopEventFrame(s, e);
    } else {
      match e {
        case RootResponse(responseId) => OnRootResponseCalm(s, responseId);
        case RootError(failure) => OnRootErrorSteady(s, failure);
        case SteerResponse(steeredId) => SteerResponseKeepsInbound(s, steeredId);
        case SteerError(refusal) => SteerErrorKeepsInbound(s, refusal);
        case Notify(note) => OnNoteSteady(s, note, false);
        case HistoryScanned(candidates, failed, expired) => OnHistoryScannedSteady(s, candidates, failed, expired);
      }
    }
  }

  lemma StepReceives(s: State, e: Event, later: seq<Event>)
    requires Identified(s)
    ensures s.inbound + Delivered([e] + later, |s.inbound|)
         == Step(s, e).inbound + Delivered(later, |Step(s, e).inbound|)
  {
    assert ([e] + later)[1..] == later;
    if !e.Framed? && !e.PlainLine? {
      StepInbound(s, e);
    } else {
      InputArrives(s, e);
      InboundGrows(s.inbound, Step(s, e).inbound[|s.inbound|], Delivered(later, |s.inbound| + 1));
    }
  }

  lemma KickKeepsInbound(s: State)
    ensures KickDrain(s).inbound == s.inbound && KickDrain(TryAdmitSteer(s)).inbound == s.inbound
  {}

  lemma InputArrives(s: State, e: Event)
    requires e.Framed? || e.PlainLine?
    ensures |Step(s, e).inbound| == |s.inbound| + 1 && Step(s, e).inbound == s.inbound + [Step(s, e).inbound[|s.inbound|]]
    ensures Delivered([e], |s.inbound|) == [Step(s, e).inbound[|s.inbound|]]
  {
    match e {
      case Framed(content, sidecar, replyId, steerable) => KickKeepsInbound(Receive(s, content, sidecar, replyId, steerable));
      case PlainLine(line) => KickKeepsInbound(Receive(s, line, None, None, false));
    }
  }

  lemma InboundGrows(inbound: seq<Input>, input: Input, later: seq<Input>)
    ensures inbound + ([input] + later) == (inbound + [input]) + later
  {}

  lemma {:induction false} RunFrom(s: State, events: seq<Event>)
    requires Sound(s) && Identified(s)
    ensures Sound(Run(s, events)) && Identified(Run(s, events))
    ensures Run(s, events).inbound == s.inbound + Delivered(events, |s.inbound|)
    decreases |events|
  {
    if events != [] {
      StepSound(s, events[0]);
      StepKeepsIdentity(s, events[0]);
      RunFrom(Step(s, events[0]), events[1..]);
      StepReceives(s, events[0], events[1..]);
      assert events == [events[0]] + events[1..];
    }
  }

  lemma InitialSound(cfg: Config)
    ensures Sound(InitialState(cfg)) && Identified(InitialState(cfg)) && ParkedOk(InitialState(cfg))
  {}

  /** On every run without an overlap, the inputs answered, those in hand and those queued
      are together the inputs received, in order. A fenced run has answered a prefix. */
  lemma NoInputIsLost(cfg: Config, events: seq<Event>)
    requires !Run(InitialState(cfg), events).overlapped
    ensures var s := Run(InitialState(cfg), events);
            && s.inbound == Delivered(events, 0)
            && (!s.fenced ==> Answered(s.finals) + InHand(s) + s.queue == Delivered(events, 0))
            && (s.fenced ==> Answered(s.finals) <= Delivered(events, 0))
  {
    hide Run;
    InitialSound(cfg);
    RunFrom(InitialState(cfg), events);
    AnsweredSoFar(Run(InitialState(cfg), events));
    assert [] + Delivered(events, 0) == Delivered(events, 0);
  }

  lemma AnsweredSoFar(s: State)
    requires Sound(s) && !s.overlapped
    ensures !s.fenced ==> Answered(s.finals) + InHand(s) + s.queue == s.inbound
    ensures s.fenced ==> Answered(s.finals) <= s.inbound
  {}

  /** The i-th final answers the i-th input received: one final each, never out of order. */
  lemma FinalsAnswerInOrder(cfg: Config, events: seq<Event>, i: nat)
    requires !Run(InitialState(cfg), events).overlapped
    requires i < |Run(InitialState(cfg), events).finals|
    ensures i < |Delivered(events, 0)|
    ensures Run(InitialState(cfg), events).finals[i].input == Delivered(events, 0)[i]
    ensures Delivered(events, 0)[i].uid == i
  {
    hide Run;
    InitialSound(cfg);
    RunFrom(InitialState(cfg), events);
    var s := Run(InitialState(cfg), events);
    AnsweredAt(s.finals);
    if !s.fenced { AnsweredPrefix(s); }
    assert Answered(s.finals)[i] == s.finals[i].input;
    assert s.inbound[i].uid == i;
  }

  /** Steering safety at every moment of such a run: the one follow-up steer in flight
      carries the queue's head into the active turn under its canonical id, and every
      group of several members is explicitly authorized and has a canonical id. */
  lemma SteeringIsSafe(cfg: Config, events: seq<Event>)
    requires var s := Run(InitialState(cfg), events); !s.overlapped && !s.fenced
    ensures var s := Run(InitialState(cfg), events);
            SteerOk(s) && (s.turn.Some? ==> GroupOk(s.turn.value))
  {
    hide Run;
    InitialSound(cfg);
    RunFrom(InitialState(cfg), events);
  }
}
