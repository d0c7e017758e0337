/**
 Camera capture ownership in the workcell controller as a state machine. Every await is a
 step boundary; an answer of None is a failed request. Continuations of a settled request
 run in the step that settles it.
 */
module CaptureProtocol {
  import opened Options
  import opened Texts

  datatype Phase = Idle | Starting | Live | Stale | Failing | Stopped | StopUnconfirmed

  datatype CameraStatus = CameraStatus(session: Option<Text>, phase: Phase)

  datatype Packet = Packet(status: CameraStatus, frame: Option<Text>)

  /**
   A Start first waits for the read in flight, then for its own answer, then, when it was cancelled,
   for an exact Stop.
   */
  datatype Stage = Draining | Asked | Halting(session: Text)

  datatype Start = Start(cancelled: bool, stage: Stage)

  /**
   Teardown waits for the pending Start, then for the pending Stops, then stops what is still owned,
   one at a time.
   */
  datatype Teardown = Open | AwaitStart | AwaitStops(waited: set<Text>) | Sweeping(left: set<Text>,
          current: Option<Text>) | Done

  datatype State = State(
    owned: set<Text>, stopRequested: set<Text>, unconfirmed: set<Text>, stops: map<Text, nat>, stopId: Option<Text>,
    epoch: nat, startUnconfirmed: bool, start: Option<Start>, poll: Option<nat>, status: Option<CameraStatus>,
    cached: Option<Text>, shown: Option<Text>, teardown: Teardown)

  const Initial := State({}, {}, {}, map[], None, 0, false, None, None, None, None, None, Open)

  datatype Step =
    | RequestStart(agentIdle: bool)
    | StartProceeds
    | StartArrives(answer: Option<CameraStatus>)
    | RequestStop(expected: Option<Text>)
    | StopArrives(session: Text, answer: Option<CameraStatus>)
    | StartPoll
    | PollArrives(packet: Option<Packet>)
    | InventoryArrives(status: CameraStatus)
    | Dispose
    | TeardownProceeds(session: Text)

  predicate Disposed(s: State) { !s.teardown.Open? }

  /** A stopped status releases exactly the session it names. */
  function AcceptStopped(s: State, v: CameraStatus): State {
    if v.phase.Stopped? && v.session.Some? then
      var id := v.session.value;
      s.(owned := s.owned - {id}, unconfirmed := s.unconfirmed - {id},
         stopId := if s.stopId == v.session then None else s.stopId)
    else s
  }

  function ClearFrames(s: State): State { s.(cached := None, shown := None) }

  function StopCapture(s: State, id: Text): State {
    if id in s.stops then s
    else
      ClearFrames(s).(epoch := s.epoch + 1, stopId := Some(id), stopRequested := s.stopRequested + {id},
              stops := s.stops[id := s.epoch + 1])
  }

  function Answered(s: State, id: Text, answer: Option<CameraStatus>): State
    requires id in s.stops
  {
    var current := s.stops[id] == s.epoch;
    var t :=
      if answer.Some? && answer.value.session == Some(id) && answer.value.phase.Stopped? then
        AcceptStopped(s, answer.value)
      else s.(unconfirmed := s.unconfirmed + {id});
    var valid := answer.Some? && answer.value.session == Some(id)
        && (answer.value.phase.Stopped? || answer.value.phase.StopUnconfirmed?);
    t.(stops := t.stops - {id},
       status := if !current then s.status else if valid then answer else Some(CameraStatus(Some(id), StopUnconfirmed)))
  }

  function FinishStart(s: State, id: Text): State {
    if s.start.Some? && s.start.value.stage == Halting(id) then s.(start := None) else s
  }

  function FinishSweep(s: State, id: Text): State {
    if s.teardown.Sweeping? && s.teardown.current == Some(id) then s.(teardown := s.teardown.(current := None)) else s
  }

  function ReadPacket(s: State, p: Packet): State {
    var t := AcceptStopped(s, p.status).(startUnconfirmed := s.startUnconfirmed
                                         && !(p.status.phase.Idle? || p.status.phase.Stopped?));
    var id := p.status.session;
    var halted := id.Some? && id.value in t.stopRequested && !p.status.phase.Stopped?;
    var u := if halted then t.(unconfirmed := t.unconfirmed + {id.value},
            stopId := if t.stopId.Some? then t.stopId else id) else t;
    var frame := if halted then None else p.frame;
    u.(cached := frame, shown := frame, status := Some(if halted then CameraStatus(id, StopUnconfirmed) else p.status))
  }

  predicate MayStart(s: State, agentIdle: bool) {
    && !Disposed(s) && s.start.None? && s.stops == map[] && agentIdle && s.unconfirmed == {} && !s.startUnconfirmed
    && s.owned == {}
    && !(s.status.Some? && s.status.value.session.Some? && !s.status.value.phase.Idle?
         && !s.status.value.phase.Stopped?)
  }

  predicate Known(s: State, id: Text) {
    id in s.owned || (s.status.Some? && s.status.value.session == Some(id)) || s.stopId == Some(id)
  }

  function Cancelled(s: State): State {
    if s.start.Some? then s.(start := Some(s.start.value.(cancelled := true))) else s
  }

  function StartAnswered(s: State, answer: Option<CameraStatus>): State
    requires s.start.Some?
  {
    if answer.None? || answer.value.session.None? then s.(startUnconfirmed := true, start := None)
    else
      var id := answer.value.session.value;
      var t := s.(owned := s.owned + {id});
      if Disposed(s) || s.start.value.cancelled then
        StopCapture(t, id).(start := Some(s.start.value.(stage := Halting(id))))
      else t.(status := answer, start := None)
  }

  function Next(s: State, e: Step): State {
    match e
    case RequestStart(agentIdle) =>
      if MayStart(s, agentIdle) then s.(start := Some(Start(false, Draining)), epoch := s.epoch + 1,
              stopRequested := {}) else s
    case StartProceeds =>
      if s.start.None? || !s.start.value.stage.Draining? || s.poll.Some? then s
      else if Disposed(s) || s.start.value.cancelled then s.(start := None)
      else ClearFrames(s).(start := Some(s.start.value.(stage := Asked)))
    case StartArrives(answer) =>
      if s.start.None? || !s.start.value.stage.Asked? then s else StartAnswered(s, answer)
    case RequestStop(expected) =>
      if Disposed(s) then s
      else if expected.None? then
        if s.start.None? then s else ClearFrames(Cancelled(s)).(epoch := s.epoch + 1)
      else if !Known(s, expected.value) then s else StopCapture(Cancelled(s), expected.value)
    case StopArrives(session, answer) =>
      if session !in s.stops then s else FinishSweep(FinishStart(Answered(s, session, answer), session), session)
    case StartPoll =>
      if Disposed(s) || s.poll.Some? || s.start.Some? || s.stops != map[] then s else s.(poll := Some(s.epoch))
    case PollArrives(packet) =>
      if s.poll.None? then s
      else
        var t := s.(poll := None);
        if Disposed(s) || s.poll.value != s.epoch then t
        else if packet.None? then ClearFrames(t) else ReadPacket(t, packet.value)
    case InventoryArrives(status) => if Disposed(s) || s.status.Some? then s else s.(status := Some(status))
    case Dispose => if Disposed(s) then s else s.(teardown := AwaitStart, cached := None)
    case TeardownProceeds(session) =>
      match s.teardown
      case AwaitStart => if s.start.Some? then s else s.(teardown := AwaitStops(s.stops.Keys))
      case AwaitStops(waited) => if waited !! s.stops.Keys then s.(teardown := Sweeping(s.owned, None)) else s
      case Sweeping(left, None) =>
        if left == {} then s.(teardown := Done)
        else if session in left then StopCapture(s, session).(teardown := Sweeping(left - {session}, Some(session)))
        else s
      case _ => s
  }

  // ---------- what every step keeps ----------

  /** The decoder: a frame comes only with a live status, and belongs to the session the status names. */
  predicate Decoded(e: Step) {
    e.PollArrives? && e.packet.Some? && e.packet.value.frame.Some? ==>
      e.packet.value.status.phase.Live? && e.packet.value.status.session == e.packet.value.frame
  }

  ghost predicate AtMostOne(owned: set<Text>) {
    forall a, b :: a in owned && b in owned ==> a == b
  }

  predicate Hidden(frame: Option<Text>, stopRequested: set<Text>) { frame.Some? ==> frame.value !in stopRequested }

  ghost predicate StartFits(s: State) {
    s.start.Some? ==>
      match s.start.value.stage
      case Halting(id) => id in s.stops && (s.start.value.cancelled || Disposed(s))
      case _ => s.owned == {}
  }

  ghost predicate TeardownFits(s: State) {
    match s.teardown
    case AwaitStops(_) => s.start.None?
    case Sweeping(left, current) =>
      && s.start.None? && s.owned <= s.unconfirmed + left + (if current.Some? then {current.value} else {})
      && (current.Some? ==> current.value in s.stops)
    case Done => s.start.None? && s.owned <= s.unconfirmed
    case _ => true
  }

  ghost predicate Inv(s: State) {
    && AtMostOne(s.owned) && Hidden(s.cached, s.stopRequested) && Hidden(s.shown, s.stopRequested)
    && s.stops.Keys <= s.stopRequested && StartFits(s) && TeardownFits(s)
    && (s.poll.Some? ==> s.poll.value <= s.epoch)
    && (s.start.Some? && s.start.value.stage.Asked? ==> s.poll.None?)
    && (s.start.Some? && s.poll.Some? ==> s.poll.value < s.epoch)
  }

  lemma {:induction false} StopCaptureInv(s: State, id: Text)
    requires Inv(s)
    ensures var t := StopCapture(s, id);
            && Inv(t) && id in t.stops && id in t.stopRequested && t.owned == s.owned && t.start == s.start
            && t.teardown == s.teardown
  {
  }

  lemma {:induction false} StartArrivesInv(s: State, answer: Option<CameraStatus>)
    requires Inv(s) && s.start.Some? && s.start.value.stage.Asked?
    ensures Inv(StartAnswered(s, answer))
  {
    if answer.Some? && answer.value.session.Some? {
      var id := answer.value.session.value;
      var t := s.(owned := s.owned + {id}, start := None);
      assert s.owned == {};
      assert Inv(t);
      StopCaptureInv(t, id);
    }
  }

  lemma {:induction false} CancelledInv(s: State)
    requires Inv(s)
    ensures Inv(Cancelled(s)) && Inv(ClearFrames(Cancelled(s)).(epoch := s.epoch + 1))
  {
  }

  lemma {:induction false} PollArrivesInv(s: State, p: Packet)
    requires Inv(s) && s.poll.None? && s.start.None? && !Disposed(s) && Decoded(PollArrives(Some(p)))
    ensures Inv(ReadPacket(s, p))
  {
  }

  /** After its answer a stopped session is no longer owned, or it is recorded as unconfirmed. */
  lemma {:induction false} AnsweredSettles(s: State, id: Text, answer: Option<CameraStatus>)
    requires id in s.stops
    ensures var t := Answered(s, id, answer);
            && (id !in t.owned || id in t.unconfirmed) && t.owned <= s.owned && s.owned - t.owned <= {id}
            && s.unconfirmed - {id} <= t.unconfirmed && t.stops == s.stops - {id} && t.start == s.start
            && t.teardown == s.teardown
            && t.stopRequested == s.stopRequested && t.cached == s.cached && t.shown == s.shown && t.epoch == s.epoch
            && t.poll == s.poll
            && (id !in t.owned && id in s.owned ==> answer == Some(CameraStatus(Some(id), Stopped)))
  {
  }

  lemma {:induction false} StopArrivesInv(s: State, id: Text, answer: Option<CameraStatus>)
    requires Inv(s) && id in s.stops
    ensures Inv(FinishSweep(FinishStart(Answered(s, id, answer), id), id))
  {
    AnsweredSettles(s, id, answer);
    hide Answered;
    var t := Answered(s, id, answer);
    var u := FinishSweep(FinishStart(t, id), id);
    assert StartFits(u);
    assert TeardownFits(u);
  }

  lemma {:induction false} TeardownInv(s: State, session: Text)
    requires Inv(s)
    ensures Inv(Next(s, TeardownProceeds(session)))
  {
    StopCaptureInv(s, session);
    hide StopCapture;
  }

  lemma {:induction false} OtherInv(s: State, e: Step)
    requires Inv(s) && (e.RequestStart? || e.StartProceeds? || e.StartPoll? || e.InventoryArrives? || e.Dispose?)
    ensures Inv(Next(s, e))
  {
  }

  lemma {:induction false} NextInv(s: State, e: Step)
    requires Inv(s) && Decoded(e)
    ensures Inv(Next(s, e))
  {
    match e
    case StartArrives(answer) => if s.start.Some? && s.start.value.stage.Asked? {
      hide StartAnswered, Inv;
      StartArrivesInv(s, answer);
    }
    case RequestStop(expected) =>
      CancelledInv(s);
      hide Inv, StopCapture, Cancelled;
      if expected.Some? { StopCaptureInv(Cancelled(s), expected.value); }
    case StopArrives(session, answer) => if session in s.stops {
      hide Inv, Answered;
      StopArrivesInv(s, session, answer);
    }
    case PollArrives(packet) =>
      if s.poll.Some? && s.poll.value == s.epoch && !Disposed(s) && packet.Some? {
        hide ReadPacket;
        PollArrivesInv(s.(poll := None), packet.value);
      }
    case TeardownProceeds(session) => hide Inv, Next; TeardownInv(s, session);
    case _ => hide Inv, Next; OtherInv(s, e);
  }
}
