/**
 The camera part of the workcell controller in its own form: sets, maps and flags that
 overlapping requests update in place. Each public method is one step boundary and ends in
 the state `CaptureProtocol` gives, with the invariant kept and its own guarantee stated.
 */
module WorkcellControllers {
  import opened Options
  import opened Texts
  import opened CaptureProtocol
  import CaptureRuns
  import CaptureRequests

  class WorkcellController {
    var ownedCaptureSessions: set<Text>
    var stopRequestedSessions: set<Text>
    var unconfirmedStops: set<Text>
    var pendingStops: map<Text, nat>
    var stopCaptureSessionId: Option<Text>
    var cameraEpoch: nat
    var startUnconfirmed: bool
    var cameraStart: Option<Start>
    var cameraPending: Option<nat>
    var cameraStatus: Option<CameraStatus>
    var cachedFrame: Option<Text>
    var frame: Option<Text>
    var teardown: Teardown

    ghost function Model(): State
      reads this
    {
      State(ownedCaptureSessions, stopRequestedSessions, unconfirmedStops, pendingStops, stopCaptureSessionId,
            cameraEpoch,
            startUnconfirmed, cameraStart, cameraPending, cameraStatus, cachedFrame, frame, teardown)
    }

    /** What every reachable state satisfies. */
    ghost predicate Valid()
      reads this
    {
      Inv(Model())
    }

    constructor ()
      ensures Model() == Initial && Valid()
    {
      ownedCaptureSessions, stopRequestedSessions, unconfirmedStops, pendingStops := {}, {}, {}, map[];
      stopCaptureSessionId, cameraEpoch, startUnconfirmed, cameraStart, cameraPending := None, 0, false, None, None;
      cameraStatus, cachedFrame, frame, teardown := None, None, None, Open;
    }

    method AcceptStopped(status: CameraStatus)
      modifies this
      ensures Model() == CaptureProtocol.AcceptStopped(old(Model()), status)
    {
      if !status.phase.Stopped? || status.session.None? { return; }
      var id := status.session.value;
      ownedCaptureSessions := ownedCaptureSessions - {id};
      unconfirmedStops := unconfirmedStops - {id};
      if stopCaptureSessionId == status.session { stopCaptureSessionId := None; }
    }

    /** Asking for the exact Stop of a session; a request already pending for it is shared. */
    method StopCapture(id: Text)
      modifies this
      ensures Model() == CaptureProtocol.StopCapture(old(Model()), id)
      ensures id in stopRequestedSessions || id in old(pendingStops)
      ensures id !in old(pendingStops) ==> cachedFrame.None? && frame.None? && cameraEpoch > old(cameraEpoch)
    {
      if id in pendingStops { return; }
      cameraEpoch := cameraEpoch + 1;
      stopCaptureSessionId := Some(id);
      stopRequestedSessions := stopRequestedSessions + {id};
      cachedFrame, frame := None, None;
      pendingStops := pendingStops[id := cameraEpoch];
    }

    method SettleStop(id: Text, answer: Option<CameraStatus>)
      requires id in pendingStops
      modifies this
      ensures Model() == Answered(old(Model()), id, answer)
    {
      hide CaptureProtocol.AcceptStopped;
      var epoch := pendingStops[id];
      var valid := answer.Some? && answer.value.session == Some(id)
          && (answer.value.phase.Stopped? || answer.value.phase.StopUnconfirmed?);
      if valid && answer.value.phase.Stopped? {
        StoppedKeeps(Model(), answer.value);
        AcceptStopped(answer.value);
      } else {
        unconfirmedStops := unconfirmedStops + {id};
      }
      if cameraEpoch == epoch {
        cameraStatus := if valid then answer else Some(CameraStatus(Some(id), StopUnconfirmed));
      }
      pendingStops := pendingStops - {id};
    }

    method StopArrives(id: Text, answer: Option<CameraStatus>)
      requires Valid()
      modifies this
      ensures Model() == Next(old(Model()), Step.StopArrives(id, answer)) && Valid()
      ensures forall x :: x in old(ownedCaptureSessions) && x !in ownedCaptureSessions ==>
                x == id && answer == Some(CameraStatus(Some(id), Stopped))
      ensures id in old(pendingStops) ==> id !in pendingStops && (id !in ownedCaptureSessions || id in unconfirmedStops)
    {
      NextInv(Model(), Step.StopArrives(id, answer));
      forall x | x in Model().owned && x !in Next(Model(), Step.StopArrives(id, answer)).owned
        ensures x == id && answer == Some(CameraStatus(Some(id), Stopped))
      {
        CaptureRuns.ReleasedOnlyByStopped(Model(), Step.StopArrives(id, answer), x);
      }
      if id in pendingStops { AnsweredSettles(Model(), id, answer); }
      hide Inv;
      if id !in pendingStops { return; }
      SettleStop(id, answer);
      hide Answered;
      if cameraStart.Some? && cameraStart.value.stage == Halting(id) { cameraStart := None; }
      if teardown.Sweeping? && teardown.current == Some(id) { teardown := Sweeping(teardown.left, None); }
    }

    method StartPoll()
      requires Valid()
      modifies `cameraPending
      ensures Model() == Next(old(Model()), Step.StartPoll) && Valid()
    {
      NextInv(Model(), Step.StartPoll);
      hide Inv;
      if !teardown.Open? || cameraPending.Some? || cameraStart.Some? || pendingStops != map[] { return; }
      cameraPending := Some(cameraEpoch);
    }

    method AcceptPacket(p: Packet)
      modifies this
      ensures Model() == ReadPacket(old(Model()), p)
    {
      hide CaptureProtocol.AcceptStopped;
      StoppedLeaves(Model(), p.status);
      AcceptStopped(p.status);
      if p.status.phase.Idle? || p.status.phase.Stopped? { startUnconfirmed := false; }
      var halted := p.status.session.Some? && p.status.session.value in stopRequestedSessions
          && !p.status.phase.Stopped?;
      if halted {
        unconfirmedStops := unconfirmedStops + {p.status.session.value};
        if stopCaptureSessionId.None? { stopCaptureSessionId := p.status.session; }
      }
      frame := if halted then None else p.frame;
      cachedFrame := frame;
      cameraStatus := Some(if halted then CameraStatus(p.status.session, StopUnconfirmed) else p.status);
    }

    method PollArrives(packet: Option<Packet>)
      requires Valid() && Decoded(Step.PollArrives(packet))
      modifies this
      ensures Model() == Next(old(Model()), Step.PollArrives(packet)) && Valid()
      ensures (frame.Some? ==> frame.value !in stopRequestedSessions)
              && (cachedFrame.Some? ==> cachedFrame.value !in stopRequestedSessions)
      ensures forall x :: x in old(ownedCaptureSessions) && x !in ownedCaptureSessions ==>
                packet.Some? && packet.value.status == CameraStatus(Some(x), Stopped)
    {
      NextInv(Model(), Step.PollArrives(packet));
      forall x | x in Model().owned && x !in Next(Model(), Step.PollArrives(packet)).owned
        ensures packet.Some? && packet.value.status == CameraStatus(Some(x), Stopped)
      {
        CaptureRuns.ReleasedOnlyByStopped(Model(), Step.PollArrives(packet), x);
      }
      ShownHidden(Next(Model(), Step.PollArrives(packet)));
      hide ReadPacket, Inv;
      if cameraPending.None? { return; }
      var epoch := cameraPending.value;
      cameraPending := None;
      if !teardown.Open? || epoch != cameraEpoch { return; }
      if packet.None? { cachedFrame, frame := None, None; return; }
      AcceptPacket(packet.value);
    }

    method InventoryArrives(status: CameraStatus)
      requires Valid()
      modifies `cameraStatus
      ensures Model() == Next(old(Model()), Step.InventoryArrives(status)) && Valid()
    {
      NextInv(Model(), Step.InventoryArrives(status));
      hide Inv;
      if teardown.Open? && cameraStatus.None? { cameraStatus := Some(status); }
    }

    method RequestStart(agentIdle: bool)
      requires Valid()
      modifies this
      ensures Model() == Next(old(Model()), Step.RequestStart(agentIdle)) && Valid()
      ensures CaptureRequests.StartBegins(old(Model()), Model()) <==>
                CaptureRequests.StartGiven(old(Model()), Step.RequestStart(agentIdle))
    {
      NextInv(Model(), Step.RequestStart(agentIdle));
      CaptureRequests.BeginsIff(Model(), Step.RequestStart(agentIdle));
      hide Inv, CaptureRequests.StartGiven;
      if !teardown.Open? || cameraStart.Some? || pendingStops != map[] || !agentIdle { return; }
      if unconfirmedStops != {} || startUnconfirmed || ownedCaptureSessions != {} { return; }
      if cameraStatus.Some? && cameraStatus.value.session.Some? && !cameraStatus.value.phase.Idle?
          && !cameraStatus.value.phase.Stopped? {
        return;
      }
      cameraStart := Some(Start(false, Draining));
      cameraEpoch := cameraEpoch + 1;
      stopRequestedSessions := {};
    }

    method StartProceeds()
      requires Valid()
      modifies this
      ensures Model() == Next(old(Model()), Step.StartProceeds) && Valid()
    {
      NextInv(Model(), Step.StartProceeds);
      hide Inv;
      if cameraStart.None? || !cameraStart.value.stage.Draining? || cameraPending.Some? { return; }
      if !teardown.Open? || cameraStart.value.cancelled { cameraStart := None; return; }
      cachedFrame, frame := None, None;
      cameraStart := Some(Start(cameraStart.value.cancelled, Asked));
    }

    method StartArrives(answer: Option<CameraStatus>)
      requires Valid()
      modifies this
      ensures Model() == Next(old(Model()), Step.StartArrives(answer)) && Valid()
      ensures forall x :: x in ownedCaptureSessions && x !in old(ownedCaptureSessions) ==>
                            answer.Some? && answer.value.session == Some(x)
      ensures old(cameraStart).Some? && old(cameraStart).value == Start(true, Asked) && answer.Some?
              && answer.value.session.Some? ==>
                CaptureRuns.HaltingFor(Model(), answer.value.session.value)
                    && answer.value.session.value in pendingStops
    {
      NextInv(Model(), Step.StartArrives(answer));
      forall x | x in Next(Model(), Step.StartArrives(answer)).owned && x !in Model().owned ensures answer.Some?
          && answer.value.session == Some(x) {
        CaptureRuns.AcquiredOnlyByStart(Model(), Step.StartArrives(answer), x);
      }
      if cameraStart == Some(Start(true, Asked)) && answer.Some? && answer.value.session.Some? {
        CaptureRuns.CancelledStartHalts(Model(), answer, answer.value.session.value);
      }
      hide Inv;
      if cameraStart.None? || !cameraStart.value.stage.Asked? { return; }
      if answer.None? || answer.value.session.None? { startUnconfirmed, cameraStart := true, None; return; }
      var id := answer.value.session.value;
      ownedCaptureSessions := ownedCaptureSessions + {id};
      if !teardown.Open? || cameraStart.value.cancelled {
        StopCapture(id);
        cameraStart := Some(Start(cameraStart.value.cancelled, Halting(id)));
      } else {
        cameraStatus, cameraStart := answer, None;
      }
    }

    method RequestStop(expected: Option<Text>)
      requires Valid()
      modifies this
      ensures Model() == Next(old(Model()), Step.RequestStop(expected)) && Valid()
      ensures expected.Some? && old(teardown).Open? && Known(old(Model()), expected.value) ==>
                && expected.value in stopRequestedSessions && expected.value in pendingStops
                && frame != expected && cachedFrame != expected
                && (old(cameraStart).Some? ==> cameraStart.Some? && cameraStart.value.cancelled)
    {
      NextInv(Model(), Step.RequestStop(expected));
      if expected.Some? && teardown.Open? && Known(Model(), expected.value) {
        CaptureRuns.StopMarks(Model(), expected.value);
      }
      ShownHidden(Next(Model(), Step.RequestStop(expected)));
      hide Inv;
      if !teardown.Open? { return; }
      if expected.None? {
        if cameraStart.None? { return; }
        cameraStart := Some(Start(true, cameraStart.value.stage));
        cameraEpoch := cameraEpoch + 1;
        cachedFrame, frame := None, None;
        return;
      }
      var id := expected.value;
      if id !in ownedCaptureSessions && !(cameraStatus.Some? && cameraStatus.value.session == Some(id))
          && stopCaptureSessionId != Some(id) {
        return;
      }
      if cameraStart.Some? { cameraStart := Some(Start(true, cameraStart.value.stage)); }
      StopCapture(id);
    }

    method Dispose()
      requires Valid()
      modifies `teardown, `cachedFrame
      ensures Model() == Next(old(Model()), Step.Dispose) && Valid()
    {
      NextInv(Model(), Step.Dispose);
      hide Inv;
      if !teardown.Open? { return; }
      teardown, cachedFrame := AwaitStart, None;
    }

    method TeardownProceeds(session: Text)
      requires Valid()
      modifies this
      ensures Model() == Next(old(Model()), Step.TeardownProceeds(session)) && Valid()
      ensures teardown.Done? ==> ownedCaptureSessions <= unconfirmedStops
    {
      NextInv(Model(), Step.TeardownProceeds(session));
      TeardownAccounts(Next(Model(), Step.TeardownProceeds(session)));
      hide Inv;
      match teardown {
        case AwaitStart => if cameraStart.None? { teardown := AwaitStops(pendingStops.Keys); }
        case AwaitStops(waited) => if waited !! pendingStops.Keys { teardown := Sweeping(ownedCaptureSessions, None); }
        case Sweeping(left, None) =>
          if left == {} {
            teardown := Done;
          } else if session in left {
            StopCapture(session);
            teardown := Sweeping(left - {session}, Some(session));
          }
        case _ =>
      }
    }
  }

  lemma StoppedKeeps(s: State, v: CameraStatus)
    ensures var t := CaptureProtocol.AcceptStopped(s, v);
            t.epoch == s.epoch && t.stops == s.stops && t.status == s.status
  {
  }

  lemma StoppedLeaves(s: State, v: CameraStatus)
    ensures var t := CaptureProtocol.AcceptStopped(s, v);
            t.startUnconfirmed == s.startUnconfirmed && t.stopRequested == s.stopRequested
  {
  }

  lemma ShownHidden(s: State)
    requires Inv(s)
    ensures Hidden(s.cached, s.stopRequested) && Hidden(s.shown, s.stopRequested)
  {
    hide StartFits, TeardownFits, AtMostOne, Hidden;
  }

  lemma TeardownAccounts(s: State)
    requires Inv(s)
    ensures s.teardown.Done? ==> s.owned <= s.unconfirmed
  {
    hide StartFits, AtMostOne, Hidden;
  }
}
