/**
 The simulated Node: prepare, approve, Stop, three timed steps with a final check, a log to
 which every write is appended after memory changed, and a load that replays the log. An append
 may fail in any of the ways a file append can.
 */
module SimulationNode {
  import opened Options
  import opened Texts
  import opened JsonText
  import opened Digests
  import opened RunContract

  datatype Site = Site(configurationDigest: Text, implementationDigest: Text)

  /** The scripted table state one approval moves through its steps. */
  datatype Virtual = Virtual(objectLocation: Text, armLocation: Text, held: bool)

  datatype Timer = Timer(id: Text, index: nat, virtual: Virtual)

  datatype Line = Line(run: Run, preparation: Option<Json>, evidence: Option<Json>)

  datatype Store = Store(runs: seq<Run>, preparations: map<Text, Json>, snapshots: map<Text, Json>)

  /**
   Memory and file. `open` says whether the session loaded, `torn` whether the file holds a line
   that does not parse, `cut` whether its last line lacks its newline, `unlogged` which runs have a
   latest write that did not reach the file. `log` lists the lines that were written whole.
   */
  datatype Node = Node(store: Store, log: seq<Line>, timers: seq<Timer>, time: int, open: bool, torn: bool, cut: bool,
          unlogged: set<Text>)

  /**
   What becomes of one append: it succeeds, or it throws after the whole line, the line without its
   newline, nothing of it, or a shorter part of it reached the file.
   */
  datatype Append = Appended | Kept | Cut | Lost | Torn

  /** The clock readings and the append of one run closed by a load. */
  datatype Mark = Mark(u: int, v: int, fate: Append)

  /** The clock readings of one step in the order the code takes them, and what becomes of its appends. */
  datatype Clock = Clock(a: int, b: int, c: int, d: int, first: Append, second: Append, marks: seq<Mark>)

  /** A write is refused before it changes anything, or throws after memory changed, or is done. */
  datatype Written = Refused | Threw(node: Node) | Done(node: Node)

  const EmptyStore := Store([], map[], map[])

  // ---------- records ----------

  function Detail(): Json { Obj([Pair(T("mode"), Str(T("simulation")))]) }

  function Observation(verified: Json): seq<Pair<Json>> {
    [Pair(T("evidence"), Obj([
       Pair(T("mode"), Str(T("simulation"))),
       Pair(T("readinessChecks"), Obj([
         Pair(T("configuration"), Bool(true)), Pair(T("sourcePresent"), Bool(true)),
             Pair(T("destinationClear"), Bool(true))]))])),
     Pair(T("preconditionsMet"), Bool(true)), Pair(T("verified"), verified), Pair(T("stopped"), Bool(true))]
  }

  function Preparation(site: Site): Json {
    Obj([Pair(T("contractVersion"), Str(T("physicalsystems-run-snapshot-v1"))),
         Pair(T("configurationSnapshotDigest"), Str(site.configurationDigest)),
         Pair(T("preparationObservation"), Obj(Observation(Null))), Pair(T("mode"), Str(T("simulation")))])
  }

  function Evidence(verified: bool, v: Virtual): Json {
    Obj(Observation(Bool(verified)) + [Pair(T("virtualState"), Obj([
      Pair(T("objectLocation"), Str(v.objectLocation)), Pair(T("armLocation"), Str(v.armLocation)),
          Pair(T("held"), Bool(v.held))]))])
  }

  function NewRun(site: Site, id: Text, inputs: Json, route: Text, snapshot: Text, approval: Text, clock: Clock): Run {
    Run(id, Simulation, T("transfer-container"), T("scripted-tray-transfer"), site.implementationDigest,
        T("simulation-table"), site.configurationDigest, route, snapshot, inputs,
            Approval(approval, clock.a + 60000, None),
        clock.b, 1, WaitingForApproval, NotRequested, clock.c, [Event(1, StepKind(0), clock.d, Detail())], None, [])
  }

  /** The event each scripted step records, preparation and approval included. */
  function StepKind(place: int): Text {
    match place
    case 0 => T("prepared")
    case 1 => T("approved")
    case 2 => T("pick_simulated")
    case 3 => T("transfer_simulated")
    case 4 => T("place_simulated")
    case _ => T("simulation_verified")
  }

  function Grown(r: Run, phase: Phase, kind: Text, u: int, v: int): Run {
    r.(phase := phase, revision := r.revision + 1, updatedAt := u,
       events := r.events + [Event(|r.events| + 1, kind, v, Detail())])
  }

  function Evolve(h: Hash, r: Run, phase: Phase, kind: Text, u: int, v: int): Option<Run> {
    SealRun(h, Grown(r, phase, kind, u, v))
  }

  // ---------- writing and replaying ----------

  function Put(rs: seq<Run>, r: Run): seq<Run> {
    if rs == [] then [r] else if rs[0].runId == r.runId then [r] + rs[1..] else [rs[0]] + Put(rs[1..], r)
  }

  function WithSnapshot(h: Hash, m: map<Text, Json>, v: Option<Json>): map<Text, Json> {
    if v.Some? && Digest(h, v.value).Some? then m[Digest(h, v.value).value := v.value] else m
  }

  function Record(h: Hash, s: Store, l: Line): Store {
    Store(Put(s.runs, l.run),
          if l.preparation.Some? then s.preparations[l.run.runId := l.preparation.value] else s.preparations,
          WithSnapshot(h, WithSnapshot(h, s.snapshots, l.preparation), l.evidence))
  }

  /** Reading the log back, line by line. */
  function Replay(h: Hash, log: seq<Line>): Store {
    if log == [] then EmptyStore else Record(h, Replay(h, log[..|log| - 1]), log[|log| - 1])
  }

  function StoredPreparation(s: Store, id: Text): Option<Json> {
    if id in s.preparations then Some(s.preparations[id]) else None
  }

  predicate InFile(fate: Append) { fate.Appended? || fate.Kept? || fate.Cut? }

  /**
   Whether the file holds a line that does not parse after one more append: what is written behind a
   missing newline joins the line before, and two records on one line do not parse.
   */
  predicate Spoils(n: Node, fate: Append) { n.torn || fate.Torn? || (n.cut && !fate.Lost?) }

  predicate EndsCut(n: Node, fate: Append) { fate.Cut? || (fate.Lost? && n.cut) }

  /** What one append leaves of the file. */
  predicate FileEnds(n: Node, m: Node, fate: Append) { m.torn == Spoils(n, fate) && m.cut == EndsCut(n, fate) }

  /** Memory first, then the append. */
  function Write(h: Hash, n: Node, run: Run, preparation: Option<Json>, evidence: Option<Json>, fate: Append): Written {
    if !Checks(h, run) then Refused
    else
      var store := Record(h, n.store, Line(run, preparation, evidence));
      var line := Line(run, StoredPreparation(store, run.runId), evidence);
      var m := n.(store := store, torn := Spoils(n, fate), cut := EndsCut(n, fate),
                  log := if InFile(fate) then n.log + [line] else n.log,
                  unlogged := if InFile(fate) then n.unlogged - {run.runId} else n.unlogged + {run.runId});
      if fate.Appended? then Done(m) else Threw(m)
  }

  function WriteEvolved(h: Hash, n: Node, next: Option<Run>, evidence: Option<Json>, fate: Append): Written {
    if next.None? then Refused else Write(h, n, next.value, None, evidence, fate)
  }

  function Or(n: Node, w: Written): Node { if w.Refused? then n else w.node }

  // ---------- operations ----------

  predicate AnyOpen(rs: seq<Run>) {
    exists i :: 0 <= i < |rs| && !Terminal(rs[i].phase)
  }

  function Prepare(h: Hash, site: Site, n: Node, id: Text, inputs: Json, route: Text, approval: Text,
            clock: Clock): Written {
    if !n.open || AnyOpen(n.store.runs) then Refused
    else
      match Digest(h, Preparation(site)) {
        case None => Refused
        case Some(snapshot) =>
          match SealRun(h, NewRun(site, id, inputs, route, snapshot, approval, clock))
          case None => Refused
          case Some(run) => Write(h, n, run, Some(Preparation(site)), None, clock.first)
      }
  }

  function TextField(v: Json, key: Text): Text {
    match v
    case Obj(ms) => (match Lookup(ms, key) case Some(Str(t)) => t case _ => [])
    case _ => []
  }

  function Source(inputs: Json): Text { TextField(inputs, T("source")) }
  function Destination(inputs: Json): Text { TextField(inputs, T("destination")) }

  /** Explicit, of this very record and its approval, in time, and for the route the record was prepared for. */
  predicate MayApprove(r: Run, runDigest: Text, approvalDigest: Text, approved: bool, current: Option<Text>, now: int) {
    && approved && runDigest == r.runDigest && approvalDigest == r.approval.digest
    && r.phase.WaitingForApproval? && now < r.approval.expiresAt && current == Some(r.routeReceiptDigest)
  }

  function Approved(r: Run, at: int): Run { r.(approval := r.approval.(approvedAt := Some(at))) }

  /** An approval whose append throws queues no timer. */
  function Approve(h: Hash, n: Node, id: Text, runDigest: Text, approvalDigest: Text, approved: bool,
            current: Option<Text>, clock: Clock): Written {
    var r := Find(n.store.runs, id);
    if !n.open || r.None? || !MayApprove(r.value, runDigest, approvalDigest, approved, current, clock.a) then Refused
    else
      var next := Evolve(h, Approved(r.value, clock.b), Running, StepKind(1), clock.c, clock.d);
      match WriteEvolved(h, n, next, None, clock.first)
      case Refused => Refused
      case Threw(m) => Threw(m)
      case Done(m) =>
        var start := Source(r.value.inputs);
        Done(m.(timers := m.timers + [Timer(id, 0, Virtual(start, start, false))]))
  }

  function Ended(r: Run, phase: Phase, reason: Text, evidence: Option<Text>): Run {
    r.(outcome := Some(Outcome(phase, reason, evidence)))
  }

  function StopReason(): Text { T("The scripted simulation was stopped by the operator.") }
  function RestartReason(): Text {
    T("The previous scripted simulation host ended before recording a final state. "
      + "Stop this run before preparing another.")
  }
  function CheckReason(verified: bool): Text {
    if verified then T("Three scripted simulation state transitions completed; no hardware was operated.")
    else T("The scripted simulation destination check failed.")
  }

  function StoppedKind(): Text { T("stopped") }
  function RestartedKind(): Text { T("simulation_host_restarted") }

  function Stopped(r: Run): Run { Ended(r, Cancelled, StopReason(), None).(stopStatus := StopConfirmed) }

  function Stop(h: Hash, n: Node, id: Text, clock: Clock): Written {
    var r := Find(n.store.runs, id);
    if !n.open || r.None? then Refused
    else if Terminal(r.value.phase) then Done(n)
    else WriteEvolved(h, n, Evolve(h, Stopped(r.value), Cancelled, StoppedKind(), clock.a, clock.b), None, clock.first)
  }

  function Move(v: Virtual, index: nat, inputs: Json): Virtual {
    match index
    case 0 => v.(held := true, objectLocation := T("gripper"))
    case 1 => v.(armLocation := Destination(inputs))
    case 2 => v.(objectLocation := v.armLocation, held := false)
    case _ => v
  }

  predicate Verified(v: Virtual, inputs: Json) { v.objectLocation == Destination(inputs) && !v.held }

  /** The final check of the third step, on the record that step just wrote. */
  function Verify(h: Hash, n: Node, id: Text, v: Virtual, clock: Clock): Written {
    var r := Find(n.store.runs, id);
    if r.None? then Refused
    else
      var verified := Verified(v, r.value.inputs);
      var evidence := Evidence(verified, v);
      var phase := if verified then VerifiedSuccess else Failed;
      match Digest(h, evidence)
      case None => Refused
      case Some(digest) =>
        var x := Ended(r.value, phase, CheckReason(verified), Some(digest));
        WriteEvolved(h, n, Evolve(h, x, phase, StepKind(5), clock.c, clock.d), Some(evidence), clock.second)
  }

  function Unqueue(n: Node, k: nat): Node
    requires k < |n.timers|
  {
    n.(timers := n.timers[..k] + n.timers[k + 1..])
  }

  /**
   A timer fires. A write that throws ends the callback. The process may end between the third
   step's two writes; nothing is served then until a restart.
   */
  function Fire(h: Hash, n: Node, k: nat, clock: Clock, interrupted: bool): Node
    requires k < |n.timers|
  {
    var t, idle := n.timers[k], Unqueue(n, k);
    var r := Find(n.store.runs, t.id);
    if r.None? || !r.value.phase.Running? then idle
    else
      var next := Evolve(h, r.value, Running, StepKind(t.index + 2), clock.a, clock.b);
      match WriteEvolved(h, idle, next, None, clock.first)
      case Refused => idle
      case Threw(m) => m
      case Done(m) =>
        var v := Move(t.virtual, t.index, r.value.inputs);
        if t.index < 2 then m.(timers := m.timers + [Timer(t.id, t.index + 1, v)])
        else if interrupted then m.(open := false, timers := [])
        else Or(m, Verify(h, m, t.id, v, clock))
  }

  predicate Interrupted(p: Phase) {
    p.Ready? || p.Dispatching? || p.Running? || p.Verifying?
  }

  function Unknown(r: Run): Run { Ended(r, OutcomeUnknown, RestartReason(), None) }

  function FirstMark(marks: seq<Mark>, last: int): Mark { if marks == [] then Mark(last, last, Appended) else marks[0] }

  function OtherMarks(marks: seq<Mark>): seq<Mark> { if marks == [] then [] else marks[1..] }

  function CloseRun(h: Hash, n: Node, r: Run, mark: Mark): Written {
    WriteEvolved(h, n, Evolve(h, Unknown(r), OutcomeUnknown, RestartedKind(), mark.u, mark.v), None, mark.fate)
  }

  /** Closing what the log shows active, run by run; a write that throws ends the load. */
  function Recover(h: Hash, n: Node, rs: seq<Run>, marks: seq<Mark>, last: int): Node
    decreases |rs|
  {
    if rs == [] then n
    else if !Interrupted(rs[0].phase) then Recover(h, n, rs[1..], marks, last)
    else
      match CloseRun(h, n, rs[0], FirstMark(marks, last))
      case Refused => n.(open := false)
      case Threw(m) => m.(open := false)
      case Done(m) => Recover(h, m, rs[1..], OtherMarks(marks), last)
  }

  /** The memory a load starts from: what the log says. */
  function Reloaded(h: Hash, n: Node): Node { n.(store := Replay(h, n.log), open := true, unlogged := {}) }

  /** Replay the log, then close what it shows active. */
  function Load(h: Hash, n: Node, clock: Clock): Node {
    Recover(h, Reloaded(h, n), Replay(h, n.log).runs, clock.marks, clock.d)
  }

  /** A new process: its timers are gone, and a torn file does not load. */
  function Restart(h: Hash, n: Node, clock: Clock): Node {
    var next := n.(timers := []);
    if n.torn then next.(open := false) else Load(h, next, clock)
  }

  /** Opening the conversation again: only when every run is terminal, and the file is read before anything changes. */
  function Reopen(h: Hash, n: Node, clock: Clock): Node {
    if !n.open || AnyOpen(n.store.runs) || n.torn then n else Load(h, n, clock)
  }

  datatype Step =
    | DoPrepare(id: Text, inputs: Json, route: Text, approval: Text)
    | DoApprove(id: Text, runDigest: Text, approvalDigest: Text, approved: bool, current: Option<Text>)
    | DoStop(id: Text)
    | TimerFires(k: nat, interrupted: bool)
    | HostRestarts
    | SessionReopens

  /** What one step does; a refused request changes nothing. */
  function Act(h: Hash, site: Site, n: Node, e: Step, clock: Clock): Node {
    match e
    case DoPrepare(id, inputs, route, approval) => Or(n, Prepare(h, site, n, id, inputs, route, approval, clock))
    case DoApprove(id, runDigest, approvalDigest, approved, current) =>
      Or(n, Approve(h, n, id, runDigest, approvalDigest, approved, current, clock))
    case DoStop(id) => Or(n, Stop(h, n, id, clock))
    case TimerFires(k, interrupted) => if k < |n.timers| then Fire(h, n, k, clock, interrupted) else n
    case HostRestarts => Restart(h, n, clock)
    case SessionReopens => Reopen(h, n, clock)
  }

  function Next(h: Hash, site: Site, n: Node, e: Step, clock: Clock): Node {
    Act(h, site, n, e, clock).(time := clock.d)
  }
}
