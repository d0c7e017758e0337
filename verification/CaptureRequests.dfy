/**
 Which camera requests are accepted and what each answer leaves, field by field, and that no
 preview starts, in any run, before the Stop of the previous one is settled.
 */
module CaptureRequests {
  import opened Options
  import opened Texts
  import opened CaptureProtocol
  import opened CaptureRuns

  // ---------- requests ----------

  /**
   Nothing pending, owned, unconfirmed or shown as running: no Start, no Stop, no session whose Stop
   was not confirmed, no Start without an answer.
   */
  ghost predicate StartGiven(s: State, e: Step) {
    && e.RequestStart? && e.agentIdle && s.teardown == Open && s.start == None && !s.startUnconfirmed
    && (forall id :: id !in s.owned && id !in s.unconfirmed && id !in s.stops)
    && (s.status.Some? && s.status.value.session.Some? ==> s.status.value.phase in {Idle, Stopped})
  }

  lemma StartIff(s: State, e: Step)
    ensures Starts(s, e) <==> StartGiven(s, e)
  {
    if StartGiven(s, e) {
      assert s.owned == {} && s.unconfirmed == {};
      assert s.stops.Keys == {};
      assert s.stops == map[];
    }
  }

  /** A Stop may name a session that is owned, on view, or whose Stop was asked for last. */
  predicate StopGiven(s: State, e: Step) {
    && e.RequestStop? && s.teardown == Open && e.expected.Some?
    && (e.expected.value in s.owned || s.stopId == e.expected
        || (s.status.Some? && s.status.value.session == e.expected))
  }

  /** The Start pending is to be cancelled, whether or not its session is known yet. */
  predicate CancelGiven(s: State, e: Step) {
    StopGiven(s, e) || (e.RequestStop? && s.teardown == Open && e.expected.None? && s.start.Some?)
  }

  /** The read in flight was issued since the last Start or Stop, and the view is open. */
  predicate ReadCounts(s: State) { s.teardown == Open && s.poll == Some(s.epoch) }

  // ---------- what steps leave ----------

  /** A Stop of this session goes out: it is marked, nothing is shown, and what was in flight is outdated. */
  ghost predicate Asks(s: State, t: State, id: Text) {
    if id in s.stops then
      t == s
    else
      && t.epoch == s.epoch + 1 && t.stopId == Some(id) && t.cached == None && t.shown == None
      && (forall x :: x in t.stopRequested <==> x in s.stopRequested || x == id)
      && (forall x :: x in t.stops <==> x in s.stops || x == id)
      && (forall x :: x in t.stops ==> t.stops[x] == if x == id then t.epoch else s.stops[x])
      && t == s.(epoch := t.epoch, stopId := t.stopId, cached := None, shown := None,
                 stopRequested := t.stopRequested, stops := t.stops)
  }

  lemma StopCaptureAsks(s: State, id: Text)
    ensures Asks(s, StopCapture(s, id), id)
  {
  }

  /** The session is given up and no longer counts as unconfirmed. */
  ghost predicate Releases(s: State, t: State, id: Text) {
    && (forall x :: x in t.owned <==> x in s.owned && x != id)
    && (forall x :: x in t.unconfirmed <==> x in s.unconfirmed && x != id)
    && t.stopId == (if s.stopId == Some(id) then None else s.stopId)
  }

  ghost predicate Doubts(s: State, t: State, id: Text) {
    && t.owned == s.owned && t.stopId == s.stopId
    && forall x :: x in t.unconfirmed <==> x in s.unconfirmed || x == id
  }

  predicate Confirms(answer: Option<CameraStatus>, id: Text) { answer == Some(CameraStatus(Some(id), Stopped)) }

  /**
   The answer to a Stop: a stopped status of the very session releases it, and everything else leaves
   it unconfirmed. The view shows the answer unless a later request changed what is shown.
   */
  ghost predicate StopLeaves(s: State, t: State, id: Text, answer: Option<CameraStatus>)
    requires id in s.stops
  {
    && (if Confirms(answer, id) then Releases(s, t, id) else Doubts(s, t, id))
    && t.status == (if s.stops[id] != s.epoch then s.status
                    else if Confirms(answer, id) then answer else Some(CameraStatus(Some(id), StopUnconfirmed)))
    && (forall x :: x in t.stops <==> x in s.stops && x != id)
    && (forall x :: x in t.stops ==> t.stops[x] == s.stops[x])
    && t.start == (if s.start.Some? && s.start.value.stage == Halting(id) then None else s.start)
    && (if s.teardown.Sweeping? && s.teardown.current == Some(id)
        then t.teardown == Sweeping(s.teardown.left, None) else t.teardown == s.teardown)
    && t == s.(owned := t.owned, unconfirmed := t.unconfirmed, stopId := t.stopId, status := t.status,
               stops := t.stops, start := t.start, teardown := t.teardown)
  }

  /** What the answer says of the session itself. */
  lemma AnsweredIs(s: State, id: Text, answer: Option<CameraStatus>)
    requires id in s.stops
    ensures var t := Answered(s, id, answer);
            && (if Confirms(answer, id) then Releases(s, t, id) else Doubts(s, t, id))
            && t.status == (if s.stops[id] != s.epoch then s.status
                            else if Confirms(answer, id) then answer else Some(CameraStatus(Some(id), StopUnconfirmed)))
            && t.stops == s.stops - {id}
            && t == s.(owned := t.owned, unconfirmed := t.unconfirmed, stopId := t.stopId, status := t.status,
                       stops := t.stops)
  {
  }

  lemma {:induction false} StopArrivesLeaves(s: State, id: Text, answer: Option<CameraStatus>)
    requires id in s.stops
    ensures StopLeaves(s, Next(s, StopArrives(id, answer)), id, answer)
  {
    AnsweredIs(s, id, answer);
    hide Answered, Confirms;
  }

  /**
   A camera read that counts: a session whose Stop was requested shows no frame until it is stopped,
   and is unconfirmed; a stopped status releases the session it names; an idle or stopped camera
   settles a Start that was not answered.
   */
  ghost predicate ReadLeaves(s: State, t: State, p: Packet) {
    var id, phase := p.status.session, p.status.phase;
    var halted := id.Some? && id.value in s.stopRequested && phase != Stopped;
    && (if id.Some? && phase == Stopped then Releases(s, t, id.value)
        else if halted then t.owned == s.owned
                            && (forall x :: x in t.unconfirmed <==> x in s.unconfirmed || x == id.value)
                            && t.stopId == if s.stopId.Some? then s.stopId else id
        else t.owned == s.owned && t.unconfirmed == s.unconfirmed && t.stopId == s.stopId)
    && t.startUnconfirmed == (s.startUnconfirmed && phase !in {Idle, Stopped})
    && t.cached == t.shown == (if halted then None else p.frame)
    && t.status == Some(CameraStatus(id, if halted then StopUnconfirmed else phase))
    && t == s.(owned := t.owned, unconfirmed := t.unconfirmed, stopId := t.stopId, cached := t.cached,
               startUnconfirmed := t.startUnconfirmed, shown := t.shown, status := t.status, poll := None)
  }

  lemma {:induction false} PollLeaves(s: State, packet: Option<Packet>)
    requires s.poll.Some?
    ensures var t := Next(s, PollArrives(packet));
            if !ReadCounts(s) then t == s.(poll := None)
            else if packet.None? then t == s.(poll := None, cached := None, shown := None)
            else ReadLeaves(s, t, packet.value)
  {
  }

  /** The answer to a Start that was asked for: its session is owned, and stopped at once if the Start was cancelled. */
  ghost predicate StartLeaves(s: State, t: State, answer: Option<CameraStatus>)
    requires s.start.Some?
  {
    if answer.None? || answer.value.session.None? then t == s.(startUnconfirmed := true, start := None)
    else
      var id := answer.value.session.value;
      && t.owned == s.owned + {id}
      && if s.teardown != Open || s.start.value.cancelled
         then t.start == Some(Start(s.start.value.cancelled, Halting(id)))
              && Asks(s.(owned := t.owned, start := t.start), t, id)
         else t == s.(owned := t.owned, status := answer, start := None)
  }

  /** What every step that is not an answer to a read or a Stop leaves. */
  ghost predicate Leaves(s: State, t: State, e: Step) {
    match e
    case RequestStart(_) =>
      t == if StartGiven(s, e)
           then s.(start := Some(Start(false, Draining)), epoch := s.epoch + 1, stopRequested := {}) else s
    case StartProceeds =>
      if s.start.None? || s.start.value.stage != Draining || s.poll.Some? then t == s
      else if s.teardown != Open || s.start.value.cancelled then t == s.(start := None)
      else t == s.(start := Some(Start(false, Asked)), cached := None, shown := None)
    case StartArrives(answer) =>
      if s.start.None? || s.start.value.stage != Asked then t == s else StartLeaves(s, t, answer)
    case RequestStop(expected) =>
      if !CancelGiven(s, e) then t == s
      else
        var u := if s.start.Some? then s.(start := Some(Start(true, s.start.value.stage))) else s;
        if expected.None? then t == u.(epoch := s.epoch + 1, cached := None, shown := None)
        else Asks(u, t, expected.value)
    case StartPoll =>
      t == if s.teardown == Open && s.poll == None && s.start == None && s.stops == map[]
           then s.(poll := Some(s.epoch)) else s
    case InventoryArrives(status) =>
      t == if s.teardown == Open && s.status == None then s.(status := Some(status)) else s
    case Dispose => t == if s.teardown == Open then s.(teardown := AwaitStart, cached := None) else s
    case TeardownProceeds(session) => Proceeds(s, t, session)
    case _ => true
  }

  /** Teardown waits for a pending Start, then for the Stops pending then, then stops what is owned one at a time. */
  ghost predicate Proceeds(s: State, t: State, session: Text) {
    match s.teardown
    case AwaitStart => t == if s.start == None then s.(teardown := AwaitStops(s.stops.Keys)) else s
    case AwaitStops(waited) =>
      t == if forall x :: x in waited ==> x !in s.stops then s.(teardown := Sweeping(s.owned, None)) else s
    case Sweeping(left, None) =>
      if left == {} then t == s.(teardown := Done)
      else if session !in left then t == s
      else t.teardown == Sweeping(left - {session}, Some(session)) && Asks(s.(teardown := t.teardown), t, session)
    case _ => t == s
  }

  lemma {:induction false} StepLeaves(s: State, e: Step)
    ensures Leaves(s, Next(s, e), e)
  {
    match e
    case RequestStart(_) => StartIff(s, e); hide StartGiven, MayStart;
    case RequestStop(expected) =>
      if expected.Some? { StopCaptureAsks(Cancelled(s), expected.value); }
      hide StopCapture, Asks;
    case StartArrives(answer) =>
      if s.start.Some? && s.start.value.stage.Asked? { StartAnswerLeaves(s, answer); }
    case TeardownProceeds(session) => TeardownLeaves(s, session);
    case _ =>
  }

  lemma StartAnswerLeaves(s: State, answer: Option<CameraStatus>)
    requires s.start.Some? && s.start.value.stage.Asked?
    ensures StartLeaves(s, StartAnswered(s, answer), answer)
  {
  }

  lemma TeardownLeaves(s: State, session: Text)
    ensures Proceeds(s, Next(s, TeardownProceeds(session)), session)
  {
  }

  // ---------- over whole runs ----------

  /** The answer or the read of step k says that the Stop of a session is not confirmed. */
  predicate DoubtedAt(steps: seq<Step>, k: nat, id: Text)
    requires k < |steps|
  {
    var s := After(steps, k);
    match steps[k]
    case StopArrives(session, answer) => session == id && id in s.stops && !Confirms(answer, id)
    case PollArrives(packet) =>
      && ReadCounts(s) && packet.Some? && id in s.stopRequested
      && packet.value.status.session == Some(id) && packet.value.status.phase != Stopped
    case _ => false
  }

  /** The answer or the read of step k says that the session is stopped. */
  predicate ConfirmedAt(steps: seq<Step>, k: nat, id: Text)
    requires k < |steps|
  {
    var s := After(steps, k);
    match steps[k]
    case StopArrives(session, answer) => session == id && id in s.stops && Confirms(answer, id)
    case PollArrives(packet) =>
      ReadCounts(s) && packet.Some? && packet.value.status == CameraStatus(Some(id), Stopped)
    case _ => false
  }

  ghost predicate DoubtedSince(steps: seq<Step>, k: nat, n: nat, id: Text)
    requires k < n <= |steps|
  {
    DoubtedAt(steps, k, id) && forall m :: k < m < n ==> !ConfirmedAt(steps, m, id)
  }

  lemma {:induction false} UnconfirmedStep(steps: seq<Step>, k: nat, id: Text)
    requires k < |steps|
    ensures id in After(steps, k + 1).unconfirmed <==>
              DoubtedAt(steps, k, id) || (id in After(steps, k).unconfirmed && !ConfirmedAt(steps, k, id))
  {
    var s, e := After(steps, k), steps[k];
    assert After(steps, k + 1) == Next(s, e);
    hide After, StopCapture;
    match e
    case StopArrives(session, answer) =>
      if session in s.stops { StopArrivesLeaves(s, session, answer); }
      hide Answered;
    case PollArrives(packet) =>
      if s.poll.Some? { PollLeaves(s, packet); }
      hide ReadPacket;
    case _ => StepLeaves(s, e);
  }

  /** A session counts as unconfirmed exactly from the word that its Stop is not confirmed to the word that it is. */
  lemma {:induction false} UnconfirmedIff(steps: seq<Step>, n: nat, id: Text)
    requires n <= |steps|
    ensures id in After(steps, n).unconfirmed <==> exists k :: 0 <= k < n && DoubtedSince(steps, k, n, id)
  {
    hide Next, DoubtedAt, ConfirmedAt;
    if n > 0 {
      var p: nat := n - 1;
      UnconfirmedIff(steps, p, id);
      UnconfirmedStep(steps, p, id);
      if k :| 0 <= k < p && DoubtedSince(steps, k, p, id) {
        assert !ConfirmedAt(steps, p, id) ==> DoubtedSince(steps, k, n, id);
      }
      if DoubtedAt(steps, p, id) { assert DoubtedSince(steps, p, n, id); }
      if k :| 0 <= k < n && DoubtedSince(steps, k, n, id) {
        if k < p { assert !ConfirmedAt(steps, p, id) && DoubtedSince(steps, k, p, id); }
      }
    }
  }

  predicate StartBegins(s: State, t: State) { s.start.None? && t.start.Some? }

  /** A Start begins exactly when it is given. */
  lemma {:induction false} BeginsIff(s: State, e: Step)
    ensures StartBegins(s, Next(s, e)) <==> StartGiven(s, e)
  {
    match e
    case RequestStart(_) => StartIff(s, e);
    case StopArrives(session, answer) =>
      if session in s.stops { StopArrivesLeaves(s, session, answer); }
      hide Answered;
    case PollArrives(packet) =>
      if s.poll.Some? { PollLeaves(s, packet); }
      hide ReadPacket;
    case _ =>
  }

  /**
   In every run no preview starts between the word that the Stop of a session is not confirmed and
   the word that it is, whoever asks.
   */
  lemma {:induction false} NoStartWhileUnconfirmed(steps: seq<Step>, k: nat, n: nat, id: Text)
    requires k < n < |steps| && DoubtedSince(steps, k, n, id)
    ensures !StartBegins(After(steps, n), After(steps, n + 1))
  {
    UnconfirmedIff(steps, n, id);
    BeginsIff(After(steps, n), steps[n]);
    assert After(steps, n + 1) == Next(After(steps, n), steps[n]);
    hide After, Next, DoubtedSince;
  }
}
