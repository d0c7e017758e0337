/**
 One viewer's event stream: host reads may be slow, the socket may push back, heartbeats and
 changes come at any time. A snapshot is read some time between its request and its answer.
 */
module EventStreams {
  import opened Options
  import opened Texts

  datatype Event = StateEvent(snapshot: Text) | Heartbeat

  /** A host read in flight; the host settles on a value before the answer arrives. */
  datatype Read = Asked | Captured(snapshot: Text)

  datatype State = State(
    host: Text, active: bool, destroyed: bool, blocked: bool, pending: Option<Event>,
    reading: Option<Read>, dirty: bool, lastState: Text, written: seq<Event>)

  /** How the socket takes one event: at once, filling its buffer, or with its buffer already over the limit. */
  datatype Socket = Accepts | Fills | Overflows

  datatype Step =
    | HostChanges(snapshot: Text)
    | HostCaptures
    | ReadArrives(failed: bool, socket: Socket)
    | Drains(socket: Socket)
    | Beats(socket: Socket)
    | Closes

  function Cleanup(s: State): State { s.(active := false, pending := None) }

  function Write(s: State, event: Event, socket: Socket): State {
    if !s.active || s.destroyed then Cleanup(s)
    else if socket.Overflows? then s.(destroyed := true)
    else if s.blocked then s.(pending := Some(event))
    else s.(written := s.written + [event], blocked := socket.Fills?)
  }

  /** A change marks the stream dirty and starts the reading loop unless it runs. */
  function Update(s: State): State {
    var t := s.(dirty := true);
    if t.reading.Some? || !t.active then t else t.(dirty := false, reading := Some(Asked))
  }

  /** The loop goes round again while changes came in. */
  function Loop(s: State): State {
    if s.dirty && s.active then s.(dirty := false, reading := Some(Asked)) else s.(reading := None)
  }

  /** The stream as set up: the initial snapshot is written, then one update closes the gap before the subscription. */
  function Opened(initial: Text, host: Text, socket: Socket): State {
    Update(Write(State(host, true, false, false, None, None, false, initial, []), StateEvent(initial), socket))
  }

  function Next(s: State, e: Step): State {
    match e
    case HostChanges(snapshot) => Update(s.(host := snapshot))
    case HostCaptures => if s.reading == Some(Asked) then s.(reading := Some(Captured(s.host))) else s
    case ReadArrives(failed, socket) =>
      if s.reading.None? || s.reading.value.Asked? then s
      else if failed then Cleanup(s).(reading := None)
      else
        var snapshot := s.reading.value.snapshot;
        Loop(if s.active && snapshot != s.lastState then Write(s.(lastState := snapshot), StateEvent(snapshot), socket)
             else s)
    case Drains(socket) =>
      if !s.blocked then s
      else
        var t := s.(blocked := false, pending := None);
        if s.pending.Some? then Write(t, s.pending.value, socket) else t
    case Beats(socket) => if s.active && !s.blocked then Write(s, Heartbeat, socket) else s
    case Closes => Cleanup(s)
  }

  // ---------- what every step keeps ----------

  function LastState(es: seq<Event>): Option<Text> {
    if es == [] then None
    else match es[|es| - 1] case StateEvent(snapshot) => Some(snapshot) case Heartbeat => LastState(es[..|es| - 1])
  }

  /** What the viewer has been shown last, or will be when the socket drains. */
  function Shown(s: State): Option<Text> {
    match s.pending
    case Some(StateEvent(snapshot)) => Some(snapshot)
    case _ => LastState(s.written)
  }

  /** The host's snapshot is the last state taken, or a read is out that cannot miss it, or another read is due. */
  predicate Tracks(s: State) {
    match s.reading
    case None => s.lastState == s.host
    case Some(Asked) => true
    case Some(Captured(snapshot)) => snapshot == s.host || s.dirty
  }

  predicate Inv(s: State) {
    && (s.active && !s.destroyed ==> Shown(s) == Some(s.lastState))
    && (s.pending.Some? ==> s.blocked && s.pending.value.StateEvent?)
    && (s.active ==> Tracks(s) && (s.reading.None? ==> !s.dirty))
  }

  lemma LastAppended(es: seq<Event>, e: Event)
    ensures LastState(es + [e]) == if e.StateEvent? then Some(e.snapshot) else LastState(es)
  {
    assert (es + [e])[..|es|] == es;
  }

  lemma NextInv(s: State, e: Step)
    requires Inv(s)
    ensures Inv(Next(s, e))
  {
    hide LastState;
    match e
    case ReadArrives(_, _) =>
      if s.reading.Some? && s.reading.value.Captured? { LastAppended(s.written, StateEvent(s.reading.value.snapshot)); }
    case Drains(_) => if s.pending.Some? { LastAppended(s.written, s.pending.value); }
    case Beats(_) => LastAppended(s.written, Heartbeat);
    case _ =>
  }

  lemma OpenedInv(initial: Text, host: Text, socket: Socket)
    ensures Inv(Opened(initial, host, socket))
  {
    LastAppended([], StateEvent(initial));
  }

  // ---------- whole runs ----------

  function After(initial: Text, host: Text, socket: Socket, steps: seq<Step>, n: nat): State
    requires n <= |steps|
  {
    if n == 0 then Opened(initial, host, socket) else Next(After(initial, host, socket, steps, n - 1), steps[n - 1])
  }

  lemma {:induction false} ReachableInv(initial: Text, host: Text, socket: Socket, steps: seq<Step>, n: nat)
    requires n <= |steps|
    ensures Inv(After(initial, host, socket, steps, n))
  {
    hide Inv, Next, Opened;
    if n == 0 {
      OpenedInv(initial, host, socket);
    } else {
      ReachableInv(initial, host, socket, steps, n - 1);
      NextInv(After(initial, host, socket, steps, n - 1), steps[n - 1]);
    }
  }

  /** Nothing is on its way: no read is out and no event is held back. */
  predicate Quiet(s: State) { s.active && !s.destroyed && s.reading.None? && s.pending.None? }

  /** No update is lost: a quiet stream has written the host's current snapshot last. */
  lemma {:induction false} NoLostUpdate(initial: Text, host: Text, socket: Socket, steps: seq<Step>, n: nat)
    requires n <= |steps| && Quiet(After(initial, host, socket, steps, n))
    ensures LastState(After(initial, host, socket, steps, n).written)
            == Some(After(initial, host, socket, steps, n).host)
  {
    ReachableInv(initial, host, socket, steps, n);
    hide After;
  }

  /** At most one event is held back, and it is the newest state. */
  lemma {:induction false} HeldBackIsNewest(initial: Text, host: Text, socket: Socket, steps: seq<Step>, n: nat)
    requires n <= |steps| && After(initial, host, socket, steps, n).active
             && !After(initial, host, socket, steps, n).destroyed
    ensures var s := After(initial, host, socket, steps, n);
            s.pending.Some? ==> s.blocked && s.pending == Some(StateEvent(s.lastState))
  {
    ReachableInv(initial, host, socket, steps, n);
    hide After;
  }

  // ---------- a state written twice ----------

  /** The step writes the given state. */
  predicate WritesState(s: State, e: Step, snapshot: Text) {
    Next(s, e).written == s.written + [StateEvent(snapshot)]
  }

  /**
   A step writes the state that was written last exactly when it is a drain that the socket takes
   and that very state was held back: other states were replaced while it was blocked.
   */
  lemma WritesAgainIff(s: State, e: Step, snapshot: Text)
    requires Inv(s) && LastState(s.written) == Some(snapshot)
    ensures WritesState(s, e, snapshot)
            <==> e.Drains? && !e.socket.Overflows? && s.active && !s.destroyed && s.blocked
                 && s.pending == Some(StateEvent(snapshot))
  {
    hide LastState;
    var es := s.written;
    assert es != es + [StateEvent(snapshot)] by { assert |es + [StateEvent(snapshot)]| == |es| + 1; }
    assert es + [Heartbeat] != es + [StateEvent(snapshot)] by {
      assert (es + [Heartbeat])[|es|] != (es + [StateEvent(snapshot)])[|es|];
    }
    match e {
      case ReadArrives(failed, socket) =>
        if s.reading.Some? && s.reading.value.Captured? { OtherWritten(es, s.reading.value.snapshot, snapshot); }
      case Drains(socket) =>
        if s.pending.Some? && s.pending.value.StateEvent? { OtherWritten(es, s.pending.value.snapshot, snapshot); }
      case _ =>
    }
  }

  lemma OtherWritten(es: seq<Event>, a: Text, b: Text)
    ensures es + [StateEvent(a)] == es + [StateEvent(b)] <==> a == b
  {
    assert (es + [StateEvent(a)])[|es|] == StateEvent(a) && (es + [StateEvent(b)])[|es|] == StateEvent(b);
  }

  /** The host changes to another snapshot and back while the socket is blocked. */
  function ThereAndBack(first: Text, second: Text): seq<Step> {
    [HostChanges(second), HostCaptures, ReadArrives(false, Accepts), HostChanges(first), HostCaptures,
     ReadArrives(false, Accepts), Drains(Accepts)]
  }

  /** Then the first snapshot is written twice in a row. */
  lemma {:induction false} StateMayBeWrittenTwice(first: Text, second: Text)
    requires first != second
    ensures var steps := ThereAndBack(first, second);
            After(first, first, Fills, steps, 7).written == [StateEvent(first), StateEvent(first)]
  {
    var steps := ThereAndBack(first, second);
    var written := [StateEvent(first)];
    assert [] + written == written;
    assert After(first, first, Fills, steps, 0) == State(first, true, false, true, None, Some(Asked), false, first,
               written);
    assert After(first, first, Fills, steps, 1) == State(second, true, false, true, None, Some(Asked), true, first,
               written);
    assert After(first, first, Fills, steps, 2) == State(second, true, false, true, None, Some(Captured(second)), true,
               first, written);
    assert After(first, first, Fills, steps, 3)
        == State(second, true, false, true, Some(StateEvent(second)), Some(Asked), false, second, written);
    assert After(first, first, Fills, steps, 4)
        == State(first, true, false, true, Some(StateEvent(second)), Some(Asked), true, second, written);
    assert After(first, first, Fills, steps, 5)
        == State(first, true, false, true, Some(StateEvent(second)), Some(Captured(first)), true, second, written);
    assert After(first, first, Fills, steps, 6)
        == State(first, true, false, true, Some(StateEvent(first)), Some(Asked), false, first, written);
    assert After(first, first, Fills, steps, 7).written == written + [StateEvent(first)];
  }

  // ---------- progress ----------

  /** Steps that answer what is out while the host stays still: one capture, one answer, one drain. */
  function Settling(): seq<Step> {
    [HostCaptures, ReadArrives(false, Accepts), HostCaptures, ReadArrives(false, Accepts), Drains(Accepts)]
  }

  function Run(s: State, steps: seq<Step>): State
    decreases steps
  {
    if steps == [] then s else Run(Next(s, steps[0]), steps[1..])
  }

  /** One read to its end: the answer to a read that no change overtook ends the loop. */
  function Round(s: State): State { Next(Next(s, HostCaptures), ReadArrives(false, Accepts)) }

  lemma {:induction false} RoundSettles(s: State)
    requires Inv(s) && s.active && !s.destroyed
    ensures var t := Round(s);
            && Inv(t) && t.active && !t.destroyed && t.host == s.host && !t.dirty && (!s.dirty ==> t.reading.None?)
  {
    NextInv(s, HostCaptures);
    NextInv(Next(s, HostCaptures), ReadArrives(false, Accepts));
    hide LastState;
  }

  lemma {:induction false} DrainSettles(s: State)
    requires Inv(s) && s.active && !s.destroyed && s.reading.None?
    ensures var t := Next(s, Drains(Accepts)); Inv(t) && Quiet(t) && t.host == s.host
  {
    NextInv(s, Drains(Accepts));
    hide LastState;
  }

  /** From any open state five answers make the stream quiet, so the viewer sees the host's snapshot. */
  lemma {:induction false} BecomesQuiet(s: State)
    requires Inv(s) && s.active && !s.destroyed
    ensures var t := Run(s, Settling()); Quiet(t) && t.host == s.host && LastState(t.written) == Some(s.host)
  {
    RunFive(s);
    RoundSettles(s);
    RoundSettles(Round(s));
    DrainSettles(Round(Round(s)));
    hide LastState, Run, Next;
  }

  lemma {:induction false} RunFive(s: State)
    ensures Run(s, Settling()) ==
      Next(Next(Next(Next(Next(s, HostCaptures), ReadArrives(false, Accepts)), HostCaptures),
              ReadArrives(false, Accepts)), Drains(Accepts))
  {
    hide Next;
    var steps := Settling();
    assert steps[1..][1..] == steps[2..] && steps[2..][1..] == steps[3..] && steps[3..][1..] == steps[4..]
           && steps[4..][1..] == [];
    var s1 := Next(s, steps[0]);
    var s2 := Next(s1, steps[1]);
    var s3 := Next(s2, steps[2]);
    var s4 := Next(s3, steps[3]);
    assert Run(s4, steps[4..]) == Run(Next(s4, steps[4]), []);
    assert Run(s3, steps[3..]) == Run(s4, steps[4..]);
    assert Run(s2, steps[2..]) == Run(s3, steps[3..]);
    assert Run(s1, steps[1..]) == Run(s2, steps[2..]);
  }

  lemma QuietShows(s: State)
    requires Inv(s)
    ensures Quiet(s) ==> LastState(s.written) == Some(s.host)
  {
    hide LastState;
  }

  // ---------- the stream in place ----------

  class EventStream {
    var host: Text
    var active: bool
    var destroyed: bool
    var blocked: bool
    var pending: Option<Event>
    var reading: Option<Read>
    var dirty: bool
    var lastState: Text
    var written: seq<Event>

    ghost function Model(): State
      reads this
    {
      State(host, active, destroyed, blocked, pending, reading, dirty, lastState, written)
    }

    /** What every reachable state satisfies. */
    ghost predicate Valid()
      reads this
    {
      Inv(Model())
    }

    constructor (initial: Text, host: Text, socket: Socket)
      ensures Model() == Opened(initial, host, socket) && Valid()
    {
      this.host, active, destroyed, blocked, pending := host, true, false, false, None;
      reading, dirty, lastState, written := None, false, initial, [];
      new;
      WriteEvent(StateEvent(initial), socket);
      UpdateState();
      OpenedInv(initial, host, socket);
    }

    method CleanUp()
      modifies `active, `pending
      ensures Model() == Cleanup(old(Model()))
    {
      active, pending := false, None;
    }

    method WriteEvent(event: Event, socket: Socket)
      modifies `active, `pending, `destroyed, `blocked, `written
      ensures Model() == Write(old(Model()), event, socket)
    {
      if !active || destroyed { CleanUp(); return; }
      if socket.Overflows? { destroyed := true; return; }
      if blocked { pending := Some(event); return; }
      written := written + [event];
      blocked := socket.Fills?;
    }

    method UpdateState()
      modifies `dirty, `reading
      ensures Model() == Update(old(Model()))
    {
      dirty := true;
      if reading.Some? || !active { return; }
      dirty, reading := false, Some(Asked);
    }

    method HostChanges(snapshot: Text)
      requires Valid()
      modifies this
      ensures Model() == Next(old(Model()), Step.HostChanges(snapshot)) && Valid()
      ensures Quiet(Model()) ==> LastState(written) == Some(host)
    {
      NextInv(Model(), Step.HostChanges(snapshot));
      QuietShows(Next(Model(), Step.HostChanges(snapshot)));
      hide Inv, LastState;
      host := snapshot;
      UpdateState();
    }

    method HostCaptures()
      requires Valid()
      modifies `reading
      ensures Model() == Next(old(Model()), Step.HostCaptures) && Valid()
    {
      NextInv(Model(), Step.HostCaptures);
      hide Inv, LastState;
      if reading == Some(Asked) { reading := Some(Captured(host)); }
    }

    method ReadArrives(failed: bool, socket: Socket)
      requires Valid()
      modifies this
      ensures Model() == Next(old(Model()), Step.ReadArrives(failed, socket)) && Valid()
      ensures Quiet(Model()) ==> LastState(written) == Some(host)
    {
      NextInv(Model(), Step.ReadArrives(failed, socket));
      QuietShows(Next(Model(), Step.ReadArrives(failed, socket)));
      hide Inv, LastState;
      if reading.None? || reading.value.Asked? { return; }
      if failed { CleanUp(); reading := None; return; }
      var snapshot := reading.value.snapshot;
      if active && snapshot != lastState {
        lastState := snapshot;
        WriteEvent(StateEvent(snapshot), socket);
      }
      if dirty && active { dirty, reading := false, Some(Asked); } else { reading := None; }
    }

    method Drains(socket: Socket)
      requires Valid()
      modifies this
      ensures Model() == Next(old(Model()), Step.Drains(socket)) && Valid()
      ensures Quiet(Model()) ==> LastState(written) == Some(host)
    {
      NextInv(Model(), Step.Drains(socket));
      QuietShows(Next(Model(), Step.Drains(socket)));
      hide Inv, LastState;
      if !blocked { return; }
      var event := pending;
      blocked, pending := false, None;
      if event.Some? { WriteEvent(event.value, socket); }
    }

    method Beats(socket: Socket)
      requires Valid()
      modifies this
      ensures Model() == Next(old(Model()), Step.Beats(socket)) && Valid()
    {
      NextInv(Model(), Step.Beats(socket));
      hide Inv, LastState;
      if active && !blocked { WriteEvent(Heartbeat, socket); }
    }

    method Closes()
      requires Valid()
      modifies `active, `pending
      ensures Model() == Next(old(Model()), Step.Closes) && Valid()
    {
      NextInv(Model(), Step.Closes);
      hide Inv, LastState;
      CleanUp();
    }
  }
}
