/**
 Capture ownership and stale frames over whole runs of the workcell controller.
 */
module CaptureRuns {
  import opened Options
  import opened Texts
  import opened CaptureProtocol

  // ---------- one step ----------

  /** An owned session is given up only for a stopped status that names exactly it. */
  lemma {:induction false} ReleasedOnlyByStopped(s: State, e: Step, id: Text)
    requires id in s.owned && id !in Next(s, e).owned
    ensures e == StopArrives(id, Some(CameraStatus(Some(id), Stopped)))
         || (e.PollArrives? && e.packet.Some? && e.packet.value.status == CameraStatus(Some(id), Stopped))
  {
    match e
    case StopArrives(session, answer) =>
      if session in s.stops { AnsweredSettles(s, session, answer); }
      hide Answered;
    case _ =>
  }

  /** A session becomes owned only by the answer to a Start. */
  lemma {:induction false} AcquiredOnlyByStart(s: State, e: Step, id: Text)
    requires id !in s.owned && id in Next(s, e).owned
    ensures e.StartArrives? && e.answer.Some? && e.answer.value.session == Some(id)
  {
    match e
    case StopArrives(session, answer) =>
      if session in s.stops { AnsweredSettles(s, session, answer); }
      hide Answered;
    case _ =>
  }

  predicate HaltingFor(s: State, id: Text) { s.start.Some? && s.start.value.stage == Halting(id) }

  /** A Start cancelled while pending asks for the exact Stop of the session it produced, and does not end there. */
  lemma {:induction false} CancelledStartHalts(s: State, answer: Option<CameraStatus>, id: Text)
    requires Inv(s) && s.start.Some? && s.start.value.stage.Asked? && (s.start.value.cancelled || Disposed(s))
    requires answer.Some? && answer.value.session == Some(id)
    ensures var t := Next(s, StartArrives(answer));
            HaltingFor(t, id) && id in t.stops && id in t.stopRequested && id in t.owned
  {
  }

  /** It ends with the answer to that Stop, when the session is released or recorded as unconfirmed. */
  lemma {:induction false} HaltEnds(s: State, e: Step, id: Text)
    requires Inv(s) && HaltingFor(s, id)
    ensures var t := Next(s, e);
            HaltingFor(t, id) || (e.StopArrives? && e.session == id && t.start.None?
                                  && (id !in t.owned || id in t.unconfirmed))
  {
    match e
    case StopArrives(session, answer) =>
      if session in s.stops { AnsweredSettles(s, session, answer); }
      hide Answered;
    case _ =>
  }

  predicate Starts(s: State, e: Step) { e.RequestStart? && MayStart(s, e.agentIdle) }

  /** A session whose Stop was requested stays marked until a Start is accepted. */
  lemma {:induction false} MarkedStays(s: State, e: Step, id: Text)
    requires id in s.stopRequested && !Starts(s, e)
    ensures id in Next(s, e).stopRequested
  {
    match e
    case StopArrives(session, answer) =>
      if session in s.stops { AnsweredSettles(s, session, answer); }
      hide Answered;
    case _ =>
  }

  /** Every accepted Stop of a session marks it and hides whatever was shown. */
  lemma {:induction false} StopMarks(s: State, id: Text)
    requires Inv(s) && !Disposed(s) && Known(s, id)
    ensures var t := Next(s, RequestStop(Some(id)));
            id in t.stopRequested && id in t.stops && (id !in s.stops ==> t.cached.None? && t.shown.None?)
            && (s.start.Some? ==> t.start.Some? && t.start.value.cancelled)
  {
  }

  // ---------- whole runs ----------

  function After(steps: seq<Step>, n: nat): State
    requires n <= |steps|
  {
    if n == 0 then Initial else Next(After(steps, n - 1), steps[n - 1])
  }

  ghost predicate DecodedAll(steps: seq<Step>) {
    forall i :: 0 <= i < |steps| ==> Decoded(steps[i])
  }

  lemma {:induction false} ReachableInv(steps: seq<Step>, n: nat)
    requires n <= |steps| && DecodedAll(steps)
    ensures Inv(After(steps, n))
  {
    if n > 0 {
      hide Next, Inv;
      ReachableInv(steps, n - 1);
      NextInv(After(steps, n - 1), steps[n - 1]);
    } else {
      InitialInv();
    }
  }

  lemma InitialInv()
    ensures Inv(Initial)
  {
  }

  /** At most one capture session is owned at any time. */
  lemma {:induction false} OneOwner(steps: seq<Step>, n: nat, a: Text, b: Text)
    requires n <= |steps| && DecodedAll(steps) && a in After(steps, n).owned && b in After(steps, n).owned
    ensures a == b
  {
    ReachableInv(steps, n);
    hide After;
  }

  /** When teardown is done every session still owned is recorded as stop-unconfirmed. */
  lemma {:induction false} TeardownSettles(steps: seq<Step>, n: nat)
    requires n <= |steps| && DecodedAll(steps) && After(steps, n).teardown.Done?
    ensures After(steps, n).owned <= After(steps, n).unconfirmed
  {
    ReachableInv(steps, n);
    hide After;
  }

  /** Between producing a session and completing, a cancelled Start saw the answer to the exact Stop of that session. */
  lemma {:induction false} CancelledStartSettles(steps: seq<Step>, i: nat, j: nat, id: Text)
    requires i <= j <= |steps| && DecodedAll(steps) && HaltingFor(After(steps, i), id)
             && !HaltingFor(After(steps, j), id)
    ensures exists k :: i <= k < j && steps[k].StopArrives? && steps[k].session == id
                        && (id !in After(steps, k + 1).owned || id in After(steps, k + 1).unconfirmed)
    decreases j
  {
    hide Next, Inv, HaltingFor;
    if HaltingFor(After(steps, j - 1), id) {
      ReachableInv(steps, j - 1);
      HaltEnds(After(steps, j - 1), steps[j - 1], id);
    } else {
      CancelledStartSettles(steps, i, j - 1, id);
    }
  }

  /**
   No frame of a session is cached or shown once its Stop was requested, until a later Start,
   whenever the read was issued.
   */
  lemma {:induction false} NothingStale(steps: seq<Step>, i: nat, j: nat, id: Text)
    requires i <= j <= |steps| && DecodedAll(steps) && id in After(steps, i).stopRequested
    requires forall k :: i <= k < j ==> !Starts(After(steps, k), steps[k])
    ensures After(steps, j).cached != Some(id) && After(steps, j).shown != Some(id)
  {
    StillMarked(steps, i, j, id);
    ReachableInv(steps, j);
    hide After;
  }

  lemma {:induction false} StillMarked(steps: seq<Step>, i: nat, j: nat, id: Text)
    requires i <= j <= |steps| && id in After(steps, i).stopRequested
    requires forall k :: i <= k < j ==> !Starts(After(steps, k), steps[k])
    ensures id in After(steps, j).stopRequested
    decreases j
  {
    hide Next, Starts;
    if i < j {
      StillMarked(steps, i, j - 1, id);
      MarkedStays(After(steps, j - 1), steps[j - 1], id);
    }
  }
}
