/**
 What each step writes to the viewer and leaves of the stream, field by field, and that a stream
 that is closed writes nothing more in any run.
 */
module EventStreamRules {
  import opened Options
  import opened Texts
  import opened EventStreams

  predicate Writable(s: State) { s.active && !s.destroyed }

  /** The state a step has for the viewer: the snapshot just read if it is new, or the one held back. */
  predicate HasState(s: State, e: Step, snapshot: Text) {
    || (e.ReadArrives? && !e.failed && !s.blocked && s.reading == Some(Captured(snapshot)) && snapshot != s.lastState)
    || (e.Drains? && s.blocked && s.pending == Some(StateEvent(snapshot)))
  }

  function SocketOf(e: Step): Socket {
    match e
    case ReadArrives(_, socket) => socket
    case Drains(socket) => socket
    case Beats(socket) => socket
    case _ => Accepts
  }

  /** The event a step has for the viewer: a state, or the heartbeat of a timer on a stream that is not blocked. */
  predicate Has(s: State, e: Step, event: Event) {
    match event
    case StateEvent(snapshot) => HasState(s, e, snapshot)
    case Heartbeat => e.Beats? && !s.blocked
  }

  /**
   A step writes an event exactly when it has that event for the viewer, the stream is open and the
   socket takes it; a step writes at most one.
   */
  lemma WritesIff(s: State, e: Step, event: Event)
    requires Inv(s)
    ensures Next(s, e).written == s.written + [event] <==>
              Has(s, e, event) && s.active && !s.destroyed && SocketOf(e) != Overflows
    ensures Next(s, e).written == s.written
            || (|Next(s, e).written| == |s.written| + 1 && s.written <= Next(s, e).written)
  {
    hide LastState;
    assert s.written != s.written + [event] by { assert |s.written + [event]| == |s.written| + 1; }
    match e
    case ReadArrives(_, _) =>
      if s.reading.Some? && s.reading.value.Captured? {
        Appended(s.written, StateEvent(s.reading.value.snapshot), event);
      }
    case Drains(_) => if s.pending.Some? { Appended(s.written, s.pending.value, event); }
    case Beats(_) => Appended(s.written, Heartbeat, event);
    case _ =>
  }

  lemma Appended(es: seq<Event>, a: Event, b: Event)
    ensures es + [a] == es + [b] <==> a == b
    ensures es <= es + [a]
  {
    assert (es + [a])[|es|] == a && (es + [b])[|es|] == b;
  }

  // ---------- what steps leave ----------

  /** One event sent: nothing on a closed stream, the end of an overflowing one, held back while blocked. */
  predicate Sent(s: State, t: State, event: Event, socket: Socket) {
    if !Writable(s) then t == s.(active := false, pending := None)
    else if socket == Overflows then t == s.(destroyed := true)
    else if s.blocked then t == s.(pending := Some(event))
    else t == s.(written := s.written + [event], blocked := socket == Fills)
  }

  /** After a read the loop goes round again if a change came in meanwhile. */
  predicate GoesRound(s: State, t: State) {
    t == if s.active && s.dirty then s.(dirty := false, reading := Some(Asked)) else s.(reading := None)
  }

  ghost predicate Leaves(s: State, t: State, e: Step) {
    match e
    case HostChanges(snapshot) =>
      t == if s.active && s.reading == None then s.(host := snapshot, dirty := false, reading := Some(Asked))
           else s.(host := snapshot, dirty := true)
    case HostCaptures => t == if s.reading == Some(Asked) then s.(reading := Some(Captured(s.host))) else s
    case ReadArrives(failed, socket) =>
      (match s.reading
       case Some(Captured(snapshot)) =>
         if failed then t == s.(active := false, pending := None, reading := None)
         else if s.active && snapshot != s.lastState then
           exists u :: Sent(s.(lastState := snapshot), u, StateEvent(snapshot), socket) && GoesRound(u, t)
         else GoesRound(s, t)
       case _ => t == s)
    case Drains(socket) =>
      if !s.blocked then t == s
      else if s.pending.Some? then Sent(s.(blocked := false, pending := None), t, s.pending.value, socket)
      else t == s.(blocked := false)
    case Beats(socket) => if s.active && !s.blocked then Sent(s, t, Heartbeat, socket) else t == s
    case Closes => t == s.(active := false, pending := None)
  }

  lemma WriteSends(s: State, event: Event, socket: Socket)
    ensures Sent(s, Write(s, event, socket), event, socket)
  {
  }

  /** Every step leaves exactly what its parts say. */
  lemma StepLeaves(s: State, e: Step)
    ensures Leaves(s, Next(s, e), e)
  {
    match e
    case ReadArrives(_, socket) =>
      if s.reading.Some? && s.reading.value.Captured? {
        var snapshot := s.reading.value.snapshot;
        WriteSends(s.(lastState := snapshot), StateEvent(snapshot), socket);
      }
    case Drains(socket) =>
      if s.pending.Some? { WriteSends(s.(blocked := false, pending := None), s.pending.value, socket); }
    case Beats(socket) => WriteSends(s, Heartbeat, socket);
    case _ =>
  }

  /** A stream opens with its first snapshot written, unless the socket overflows, and a read out to close the gap. */
  lemma OpensWith(initial: Text, host: Text, socket: Socket)
    ensures Opened(initial, host, socket)
            == State(host, true, socket == Overflows, socket == Fills, None, Some(Asked), false, initial,
                     if socket == Overflows then [] else [StateEvent(initial)])
  {
  }

  // ---------- over whole runs ----------

  /** The steps that end a stream. */
  predicate Ends(s: State, e: Step) {
    || e.Closes? || (e.ReadArrives? && e.failed && s.reading.Some? && s.reading.value.Captured?)
    || (e == Beats(Overflows) && !s.blocked)
  }

  lemma EndsWrite(s: State, e: Step)
    requires Ends(s, e) || !Writable(s)
    ensures !Writable(Next(s, e)) && Next(s, e).written == s.written
  {
  }

  /** Closing, a failed read and an overflowing socket end the stream: nothing is written afterwards. */
  lemma {:induction false} NothingAfterTheEnd(initial: Text, host: Text, socket: Socket, steps: seq<Step>, i: nat,
            j: nat)
    requires i <= j <= |steps|
    requires var s := After(initial, host, socket, steps, i);
             !s.active || s.destroyed || (i < j && Ends(s, steps[i]))
    ensures After(initial, host, socket, steps, j).written == After(initial, host, socket, steps, i).written
    decreases j
  {
    if i < j {
      hide Next, Ends;
      EndsWrite(After(initial, host, socket, steps, i), steps[i]);
      ShutFrom(initial, host, socket, steps, i + 1, j);
    }
  }

  lemma {:induction false} ShutFrom(initial: Text, host: Text, socket: Socket, steps: seq<Step>, i: nat, j: nat)
    requires i <= j <= |steps| && !Writable(After(initial, host, socket, steps, i))
    ensures !Writable(After(initial, host, socket, steps, j))
    ensures After(initial, host, socket, steps, j).written == After(initial, host, socket, steps, i).written
    decreases j
  {
    if i < j {
      hide Next, Writable, Ends;
      ShutFrom(initial, host, socket, steps, i, j - 1);
      EndsWrite(After(initial, host, socket, steps, j - 1), steps[j - 1]);
    }
  }
}
