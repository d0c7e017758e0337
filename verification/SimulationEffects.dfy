/**
 What each operation of the simulated Node leaves in memory and in the file, field by field: which
 record it writes, where, and which timer it queues.
 */
module SimulationEffects {
  import opened Options
  import opened Texts
  import opened JsonText
  import opened Digests
  import opened RunContract
  import opened RunDepth
  import opened SimulationNode
  import opened SimulationRecords
  import opened SimulationLogs
  import opened SimulationStore
  import opened SimulationSafety
  import opened SimulationRuns

  // ---------- one write ----------

  /** A known run keeps its place; a new one comes last. */
  ghost predicate Placed(rs: seq<Run>, ss: seq<Run>, q: Run) {
    || (exists i :: 0 <= i < |rs| && rs[i].runId == q.runId && ss == rs[i := q])
    || ((forall x :: x in rs ==> x.runId != q.runId) && ss == rs + [q])
  }

  function UnderDigest(h: Hash, v: Option<Json>): map<Text, Json> {
    if v.Some? && Digest(h, v.value).Some? then map[Digest(h, v.value).value := v.value] else map[]
  }

  /**
   The record is in memory whatever becomes of its append. Its line is in the file when the append
   reached it, whole or but for its newline; what follows a missing newline makes one bad line of two.
   */
  ghost predicate Recorded(h: Hash, n: Node, m: Node, q: Run, preparation: Option<Json>, evidence: Option<Json>,
            fate: Append)
  {
    && Placed(n.store.runs, m.store.runs, q)
    && m.store.preparations == (if preparation.Some? then n.store.preparations[q.runId := preparation.value]
                                else n.store.preparations)
    && m.store.snapshots == n.store.snapshots + UnderDigest(h, preparation) + UnderDigest(h, evidence)
    && (if fate in {Appended, Kept, Cut} then
          && |m.log| == |n.log| + 1 && m.log[..|n.log|] == n.log && m.unlogged == n.unlogged - {q.runId}
          && m.log[|n.log|].run == q && m.log[|n.log|].evidence == evidence
          && (q.runId in m.store.preparations ==>
                m.log[|n.log|].preparation == Some(m.store.preparations[q.runId]))
        else m.log == n.log && m.unlogged == n.unlogged + {q.runId})
    && (m.torn <==> n.torn || fate == Torn || (n.cut && fate != Lost))
    && (m.cut <==> fate == Cut || (fate == Lost && n.cut))
  }

  lemma {:induction false} PutPlaces(rs: seq<Run>, q: Run)
    ensures Placed(rs, Put(rs, q), q)
  {
    if rs == [] {
    } else if rs[0].runId == q.runId {
      assert Put(rs, q) == rs[0 := q];
    } else {
      PutPlaces(rs[1..], q);
      assert Put(rs, q) == [rs[0]] + Put(rs[1..], q);
      PlacedBehind(rs[0], rs[1..], Put(rs[1..], q), q);
      assert rs == [rs[0]] + rs[1..];
    }
  }

  lemma PlacedBehind(r: Run, rs: seq<Run>, ss: seq<Run>, q: Run)
    requires Placed(rs, ss, q) && r.runId != q.runId
    ensures Placed([r] + rs, [r] + ss, q)
  {
    if i :| 0 <= i < |rs| && rs[i].runId == q.runId && ss == rs[i := q] {
      assert ([r] + rs)[i + 1].runId == q.runId && [r] + ss == ([r] + rs)[i + 1 := q];
    } else {
      assert [r] + ss == [r] + rs + [q];
    }
  }

  lemma {:induction false} WriteRecords(h: Hash, n: Node, q: Run, preparation: Option<Json>, evidence: Option<Json>,
            fate: Append)
    ensures var w := Write(h, n, q, preparation, evidence, fate);
            !w.Refused? ==>
              && Recorded(h, n, w.node, q, preparation, evidence, fate) && (w.Done? <==> fate == Appended)
              && w.node.timers == n.timers && w.node.open == n.open && w.node.time == n.time
  {
    hide Checks, Digest, Put, Placed;
    PutPlaces(n.store.runs, q);
  }

  // ---------- the records ----------

  function SimulationMode(): Json { Obj([Pair(T("mode"), Str(T("simulation")))]) }

  /** The record a preparation stores: what was asked for, waiting, one minute to approve. */
  predicate PreparedAs(q: Run, site: Site, id: Text, inputs: Json, route: Text, approval: Text, clock: Clock) {
    && q.runId == id && q.mode == Simulation && q.capabilityId == T("transfer-container")
    && q.implementationId == T("scripted-tray-transfer") && q.implementationDigest == site.implementationDigest
    && q.configurationId == T("simulation-table") && q.configurationDigest == site.configurationDigest
    && q.routeReceiptDigest == route && q.inputs == inputs && q.approval == Approval(approval, clock.a + 60000, None)
    && q.createdAt == clock.b && q.updatedAt == clock.c && q.revision == 1 && q.phase == WaitingForApproval
    && q.stopStatus == NotRequested && q.outcome == None
    && q.events == [Event(1, T("prepared"), clock.d, SimulationMode())]
  }

  /** One more event of the kind, one more revision; nothing else but what the arguments say. */
  predicate Follows(q: Run, r: Run, phase: Phase, kind: Text, updated: int, at: int, outcome: Option<Outcome>,
            stop: StopStatus)
  {
    && q.phase == phase && q.revision == r.revision + 1 && q.updatedAt == updated && q.outcome == outcome
    && q.stopStatus == stop && q.events == r.events + [Event(|r.events| + 1, kind, at, SimulationMode())]
    && q == r.(phase := phase, revision := q.revision, updatedAt := updated, outcome := outcome, stopStatus := stop,
               events := q.events, runDigest := q.runDigest)
  }

  lemma {:induction false} EvolveFollows(h: Hash, r: Run, phase: Phase, kind: Text, u: int, v: int)
    ensures Evolve(h, r, phase, kind, u, v).Some? ==>
              Follows(Evolve(h, r, phase, kind, u, v).value, r, phase, kind, u, v, r.outcome, r.stopStatus)
  {
    hide T, Digest, Body;
  }

  lemma {:induction false} SealedNew(h: Hash, site: Site, id: Text, inputs: Json, route: Text, snapshot: Text,
            approval: Text, clock: Clock)
    ensures var e := SealRun(h, NewRun(site, id, inputs, route, snapshot, approval, clock));
            e.Some? ==> PreparedAs(e.value, site, id, inputs, route, approval, clock)
                        && e.value.snapshotDigest == snapshot
  {
    hide T, Digest, Body;
  }

  function ReadinessBody(): Json {
    Obj([Pair(T("mode"), Str(T("simulation"))),
         Pair(T("readinessChecks"), Obj([Pair(T("configuration"), Bool(true)), Pair(T("sourcePresent"), Bool(true)),
                                         Pair(T("destinationClear"), Bool(true))]))])
  }

  function PreparationBody(site: Site): Json {
    Obj([Pair(T("contractVersion"), Str(T("physicalsystems-run-snapshot-v1"))),
         Pair(T("configurationSnapshotDigest"), Str(site.configurationDigest)),
         Pair(T("preparationObservation"),
              Obj([Pair(T("evidence"), ReadinessBody()), Pair(T("preconditionsMet"), Bool(true)),
                   Pair(T("verified"), Null), Pair(T("stopped"), Bool(true))])),
         Pair(T("mode"), Str(T("simulation")))])
  }

  /** What the final check stores: what it found, and the table it found it on. */
  function CheckBody(arrived: bool, v: Virtual): Json {
    Obj([Pair(T("evidence"), ReadinessBody()), Pair(T("preconditionsMet"), Bool(true)),
         Pair(T("verified"), Bool(arrived)), Pair(T("stopped"), Bool(true)),
         Pair(T("virtualState"),
              Obj([Pair(T("objectLocation"), Str(v.objectLocation)), Pair(T("armLocation"), Str(v.armLocation)),
                   Pair(T("held"), Bool(v.held))]))])
  }

  // ---------- preparing ----------

  ghost predicate Prepares(h: Hash, site: Site, n: Node, m: Node, id: Text, inputs: Json, route: Text, approval: Text,
            clock: Clock)
  {
    exists q :: PreparedAs(q, site, id, inputs, route, approval, clock)
                && Digest(h, PreparationBody(site)) == Some(q.snapshotDigest)
                && Recorded(h, n, m, q, Some(PreparationBody(site)), None, clock.first)
                && m.timers == n.timers && m.open == n.open
  }

  /** An accepted preparation stores this record with its preparation and queues nothing; a refused one does nothing. */
  lemma {:induction false} PrepareStores(h: Hash, site: Site, n: Node, id: Text, inputs: Json, route: Text,
            approval: Text, clock: Clock)
    requires ShortHash(h) && SitePlain(site) && Inv(h, site, n) && Ticks(n.time, clock)
    requires Sensible(n, DoPrepare(id, inputs, route, approval))
    ensures var m := Act(h, site, n, DoPrepare(id, inputs, route, approval), clock);
            if n.open && (forall r :: r in n.store.runs ==> r.phase in {VerifiedSuccess, Failed, Cancelled, Blocked})
               && JsonObject(inputs)
            then Prepares(h, site, n, m, id, inputs, route, approval, clock)
            else m == n
  {
    PrepareKeeps(h, site, n, id, inputs, route, approval, clock);
    NoneOpenIff(n.store.runs);
    hide Inv, ShortHash, Ticks, JsonObject, Keeps, T, AnyOpen, Digest, SealRun, Write, NewRun, PreparationBody,
         Preparation, Plain, Trip, OnlyChanges, Recorded, PreparedAs;
    assert PreparationBody(site) == Preparation(site) by { BodyIs(site); }
    var w := Prepare(h, site, n, id, inputs, route, approval, clock);
    if !w.Refused? {
      var snapshot := Digest(h, Preparation(site)).value;
      var q := SealRun(h, NewRun(site, id, inputs, route, snapshot, approval, clock)).value;
      SealedNew(h, site, id, inputs, route, snapshot, approval, clock);
      WriteRecords(h, n, q, Some(Preparation(site)), None, clock.first);
    }
  }

  lemma BodyIs(site: Site)
    ensures PreparationBody(site) == Preparation(site)
  {
    hide T;
  }

  lemma CheckIs(arrived: bool, v: Virtual)
    ensures CheckBody(arrived, v) == Evidence(arrived, v)
  {
    hide T;
  }

  lemma NoneOpenIff(rs: seq<Run>)
    ensures !AnyOpen(rs) <==> forall r :: r in rs ==> r.phase in {VerifiedSuccess, Failed, Cancelled, Blocked}
  {
    if AnyOpen(rs) {
      var i :| 0 <= i < |rs| && !Terminal(rs[i].phase);
      assert rs[i] in rs;
    }
  }

  // ---------- stopping ----------

  function StoppedOutcome(): Outcome {
    Outcome(Cancelled, T("The scripted simulation was stopped by the operator."), None)
  }

  ghost predicate Stops(h: Hash, n: Node, m: Node, r: Run, clock: Clock) {
    exists q :: Follows(q, r, Cancelled, T("stopped"), clock.a, clock.b, Some(StoppedOutcome()), StopConfirmed)
                && Recorded(h, n, m, q, None, None, clock.first) && m.timers == n.timers && m.open == n.open
  }

  lemma {:induction false} StoppedFollows(h: Hash, r: Run, u: int, v: int)
    ensures var e := Evolve(h, Stopped(r), Cancelled, StoppedKind(), u, v);
            e.Some? ==> Follows(e.value, r, Cancelled, T("stopped"), u, v, Some(StoppedOutcome()), StopConfirmed)
  {
    EvolveFollows(h, Stopped(r), Cancelled, StoppedKind(), u, v);
    hide T, Evolve;
  }

  predicate MayStop(n: Node, r: Run, id: Text) {
    n.open && r in n.store.runs && r.runId == id && r.phase !in {VerifiedSuccess, Failed, Cancelled, Blocked}
  }

  /** Stop of a known run that is not over stores this record and queues nothing; of any other it does nothing. */
  lemma {:induction false} StopStores(h: Hash, site: Site, n: Node, id: Text, clock: Clock)
    requires SitePlain(site) && Inv(h, site, n) && Ticks(n.time, clock)
    ensures var m := Act(h, site, n, DoStop(id), clock);
            if exists r :: MayStop(n, r, id) then exists r :: MayStop(n, r, id) && Stops(h, n, m, r, clock) else m == n
  {
    hide *;
    StoredOnce(h, site, n);
    if r :| MayStop(n, r, id) {
      StopAccepted(h, site, n, r, id, clock);
      StopStoresOne(h, site, n, r, id, clock);
    } else {
      StopRefused(h, site, n, id, clock);
    }
  }

  lemma StopRefused(h: Hash, site: Site, n: Node, id: Text, clock: Clock)
    requires forall r :: !MayStop(n, r, id)
    ensures Act(h, site, n, DoStop(id), clock) == n
  {
    hide Find, Evolve, WriteEvolved;
    var found := Find(n.store.runs, id);
    if n.open && found.Some? { assert !MayStop(n, found.value, id); }
  }

  lemma {:induction false} StopAccepted(h: Hash, site: Site, n: Node, r: Run, id: Text, clock: Clock)
    requires SitePlain(site) && Inv(h, site, n) && Ticks(n.time, clock) && MayStop(n, r, id)
    ensures !Stop(h, n, id, clock).Refused?
  {
    hide Inv, Ticks, Stop, Keeps, Closed, Cancels, RecordedIf, OnlyChanges, FileEnds, Terminal;
    StopKeeps(h, site, n, id, clock);
  }

  lemma {:induction false} StopStoresOne(h: Hash, site: Site, n: Node, r: Run, id: Text, clock: Clock)
    requires Distinct(n.store.runs) && MayStop(n, r, id) && !Stop(h, n, id, clock).Refused?
    ensures Stops(h, n, Act(h, site, n, DoStop(id), clock), r, clock)
  {
    FindIs(n.store.runs, r);
    hide Distinct, T, Evolve, Write, Recorded, StoppedOutcome, Stopped, StoppedKind, Follows, Find;
    var next := Evolve(h, Stopped(r), Cancelled, StoppedKind(), clock.a, clock.b);
    StoppedFollows(h, r, clock.a, clock.b);
    if next.Some? { WriteRecords(h, n, next.value, None, None, clock.first); }
  }

  lemma StoredOnce(h: Hash, site: Site, n: Node)
    requires Inv(h, site, n)
    ensures Distinct(n.store.runs)
  {
    InvSettled(h, site, n);
    hide Inv, TimersFit, OneTimerEach;
    SoundDistinct(h, site, n, n.time);
  }

  // ---------- a timer fires ----------

  function StepEvent(index: nat): Text
    requires index <= 2
  {
    match index
    case 0 => T("pick_simulated")
    case 1 => T("transfer_simulated")
    case 2 => T("place_simulated")
  }

  /** Where the scripted table stands after a step: picked up at the source, then carried, then put down. */
  function TableAfter(index: nat, inputs: Json): Virtual
    requires index <= 2
  {
    match index
    case 0 => Virtual(T("gripper"), Source(inputs), true)
    case 1 => Virtual(T("gripper"), Destination(inputs), true)
    case 2 => Virtual(Destination(inputs), Destination(inputs), false)
  }

  function CheckOutcome(arrived: bool, digest: Text): Outcome {
    if arrived
    then Outcome(VerifiedSuccess,
                 T("Three scripted simulation state transitions completed; no hardware was operated."), Some(digest))
    else Outcome(Failed, T("The scripted simulation destination check failed."), Some(digest))
  }

  /** The step's own record. */
  predicate Stepped(q: Run, r: Run, index: nat, clock: Clock)
    requires index <= 2
  {
    Follows(q, r, Running, StepEvent(index), clock.a, clock.b, r.outcome, r.stopStatus)
  }

  /** The container lies at its destination and was let go. */
  predicate Arrived(v: Virtual, inputs: Json) { v.objectLocation == Destination(inputs) && v.held == false }

  /** The final check's record, after the third step's: success where the container arrived, failure where not. */
  ghost predicate Verifies(h: Hash, n: Node, m: Node, q: Run, v: Virtual, clock: Clock) {
    var arrived := Arrived(v, q.inputs);
    var body := CheckBody(arrived, v);
    exists p :: Digest(h, body).Some?
                && Follows(p, q, if arrived then VerifiedSuccess else Failed, T("simulation_verified"), clock.c,
                           clock.d, Some(CheckOutcome(arrived, Digest(h, body).value)), q.stopStatus)
                && Recorded(h, n, m, p, None, Some(body), clock.second) && m.timers == n.timers && m.open == n.open
  }

  /**
   A due timer leaves the queue and writes its step. Unless that append threw, the first two steps
   queue the next one and the third runs the final check, if the process lives to do so.
   */
  ghost predicate TimerWrites(h: Hash, n: Node, m: Node, k: nat, r: Run, clock: Clock, interrupted: bool)
    requires k < |n.timers| && n.timers[k].index <= 2
  {
    var t, rest := n.timers[k], n.timers[..k] + n.timers[k + 1..];
    exists q, w :: Stepped(q, r, t.index, clock)
      && Recorded(h, n, w, q, None, None, clock.first) && w.timers == rest && w.open == n.open && w.time == n.time
      && if clock.first != Appended then m == w
         else if t.index < 2 then m == w.(timers := rest + [Timer(t.id, t.index + 1, TableAfter(t.index, r.inputs))])
         else if interrupted then m == w.(open := false, timers := [])
         else Verifies(h, w, m, q, TableAfter(2, q.inputs), clock)
  }

  lemma RecordedAlike(h: Hash, n: Node, idle: Node, w: Node, q: Run, fate: Append)
    requires Recorded(h, idle, w, q, None, None, fate) && idle == n.(timers := idle.timers)
    ensures Recorded(h, n, w, q, None, None, fate)
  {
    hide Placed, UnderDigest;
  }

  lemma StepEventIs(index: nat)
    requires index <= 2
    ensures StepEvent(index) == StepKind(index + 2)
  {
    hide T;
  }

  lemma TableIs(index: nat, inputs: Json)
    requires index <= 2
    ensures TableAfter(index, inputs) == SimulationNode.Move(Expected(index, inputs), index, inputs)
  {
    hide T;
  }

  predicate StillRuns(n: Node, r: Run, id: Text) { r in n.store.runs && r.runId == id && r.phase == Running }

  /** What a timer writes when its run is still running; a timer of any other run only leaves the queue. */
  lemma {:induction false} TimerStores(h: Hash, site: Site, n: Node, k: nat, clock: Clock, interrupted: bool)
    requires Guards(h, site) && ShortHash(h) && SitePlain(site) && Inv(h, site, n) && Ticks(n.time, clock)
    requires k < |n.timers|
    ensures n.timers[k].index <= 2
    ensures var m, id := Act(h, site, n, TimerFires(k, interrupted), clock), n.timers[k].id;
            if exists r :: StillRuns(n, r, id)
            then exists r :: StillRuns(n, r, id) && TimerWrites(h, n, m, k, r, clock, interrupted)
            else m == n.(timers := n.timers[..k] + n.timers[k + 1..])
  {
    hide *;
    ActFires(h, site, n, k, clock, interrupted);
    DueIndex(h, site, n, k);
    StoredOnce(h, site, n);
    if r :| StillRuns(n, r, n.timers[k].id) {
      FindsRunning(n, r, n.timers[k].id);
      TimerStoresOne(h, site, n, k, r, clock, interrupted);
    } else {
      TimerIdle(h, n, k, clock, interrupted);
    }
  }

  lemma ActFires(h: Hash, site: Site, n: Node, k: nat, clock: Clock, interrupted: bool)
    requires k < |n.timers|
    ensures Act(h, site, n, TimerFires(k, interrupted), clock) == Fire(h, n, k, clock, interrupted)
  {
    hide Fire;
  }

  lemma FindsRunning(n: Node, r: Run, id: Text)
    requires Distinct(n.store.runs) && StillRuns(n, r, id)
    ensures Find(n.store.runs, r.runId) == Some(r) && r.phase == Running && r.runId == id
  {
    FindIs(n.store.runs, r);
  }

  lemma TimerIdle(h: Hash, n: Node, k: nat, clock: Clock, interrupted: bool)
    requires k < |n.timers| && forall r :: !StillRuns(n, r, n.timers[k].id)
    ensures Fire(h, n, k, clock, interrupted) == n.(timers := n.timers[..k] + n.timers[k + 1..])
  {
    hide Find, Evolve, WriteEvolved;
    var found := Find(n.store.runs, n.timers[k].id);
    if found.Some? { assert !StillRuns(n, found.value, n.timers[k].id); }
  }

  lemma {:induction false} StepWritten(h: Hash, idle: Node, r: Run, index: nat, clock: Clock, w: Node)
    returns (q: Run)
    requires index <= 2
    requires WriteEvolved(h, idle, Evolve(h, r, Running, StepKind(index + 2), clock.a, clock.b), None, clock.first)
             == Wrote(clock.first, w)
    ensures Stepped(q, r, index, clock) && q.runId == r.runId && Recorded(h, idle, w, q, None, None, clock.first)
    ensures w.timers == idle.timers && w.open == idle.open && w.time == idle.time
    ensures Find(w.store.runs, q.runId) == Some(q)
  {
    hide Evolve, Write, Recorded, Follows, StepKind, StepEvent, Find, T;
    var next := Evolve(h, r, Running, StepKind(index + 2), clock.a, clock.b);
    assert next.Some?;
    q := next.value;
    StepEventIs(index);
    EvolveFollows(h, r, Running, StepKind(index + 2), clock.a, clock.b);
    FollowsSame(q, r, Running, StepEvent(index), clock.a, clock.b, r.outcome, r.stopStatus);
    WriteRecords(h, idle, q, None, None, clock.first);
    WriteFinds(h, idle, q, None, clock.first);
  }

  lemma FollowsSame(q: Run, r: Run, phase: Phase, kind: Text, updated: int, at: int, outcome: Option<Outcome>,
            stop: StopStatus)
    requires Follows(q, r, phase, kind, updated, at, outcome, stop)
    ensures q.runId == r.runId && q.inputs == r.inputs
  {
    hide T;
  }

  lemma WriteFinds(h: Hash, n: Node, q: Run, evidence: Option<Json>, fate: Append)
    ensures var w := Write(h, n, q, None, evidence, fate);
            !w.Refused? ==> Find(w.node.store.runs, q.runId) == Some(q)
  {
    hide Checks, Put, Find, Digest;
    PutFinds(n.store.runs, q, q.runId);
  }

  /** The final check of any table: it succeeds exactly where the container arrived. */
  lemma {:induction false} VerifyStores(h: Hash, w: Node, q: Run, v: Virtual, clock: Clock)
    requires Find(w.store.runs, q.runId) == Some(q)
    ensures var u := Verify(h, w, q.runId, v, clock);
            !u.Refused? ==> Verifies(h, w, u.node, q, v, clock)
  {
    hide Find, Evolve, Write, Recorded, Follows, Digest, Evidence, CheckBody, Destination, CheckOutcome, CheckReason, T;
    var arrived := Arrived(v, q.inputs);
    var body := Evidence(arrived, v);
    CheckIs(arrived, v);
    if Digest(h, body).Some? {
      var digest, phase := Digest(h, body).value, if arrived then VerifiedSuccess else Failed;
      var x := Ended(q, phase, CheckReason(arrived), Some(digest));
      var next := Evolve(h, x, phase, StepKind(5), clock.c, clock.d);
      CheckedFollows(h, q, arrived, digest, clock.c, clock.d);
      if next.Some? { WriteRecords(h, w, next.value, None, Some(body), clock.second); }
    }
  }

  lemma {:induction false} CheckedFollows(h: Hash, q: Run, arrived: bool, digest: Text, u: int, v: int)
    ensures var phase := if arrived then VerifiedSuccess else Failed;
            var e := Evolve(h, Ended(q, phase, CheckReason(arrived), Some(digest)), phase, StepKind(5), u, v);
            e.Some? ==> Follows(e.value, q, phase, T("simulation_verified"), u, v, Some(CheckOutcome(arrived, digest)),
                                q.stopStatus)
  {
    var phase := if arrived then VerifiedSuccess else Failed;
    EvolveFollows(h, Ended(q, phase, CheckReason(arrived), Some(digest)), phase, StepKind(5), u, v);
    hide T, Evolve;
  }

  lemma {:induction false} TimerStoresOne(h: Hash, site: Site, n: Node, k: nat, r: Run, clock: Clock,
            interrupted: bool)
    requires Guards(h, site) && ShortHash(h) && SitePlain(site) && Inv(h, site, n) && Ticks(n.time, clock)
    requires k < |n.timers| && n.timers[k].index <= 2 && n.timers[k].id == r.runId
    requires Find(n.store.runs, r.runId) == Some(r) && r.phase == Running
    ensures TimerWrites(h, n, Fire(h, n, k, clock, interrupted), k, r, clock, interrupted)
  {
    hide Inv, InvAt, Guards, ShortHash, Ticks, Keeps, Evolve, Write, Find, Replay, Expected, TableAfter, Verify,
         SimulationNode.Move, StepKind, StepEvent, Recorded, Follows, NoTimerOf, Verifies, WriteEvolved, FileEnds;
    TickOrder(n.time, clock);
    var t, idle := n.timers[k], Unqueue(n, k);
    assert idle == n.(timers := idle.timers);
    var e, w := StepWrites(h, site, n, k, clock);
    FireIs(h, n, k, clock, interrupted, w);
    var q := StepWritten(h, idle, r, t.index, clock, w);
    assert q == e;
    RecordedAlike(h, n, idle, w, q, clock.first);
    TableIs(t.index, r.inputs);
    if clock.first.Appended? && t.index == 2 && !interrupted {
      KeptInvAt(h, site, n, w, clock.b);
      LastVerifies(h, site, w, q, clock);
    }
  }

  lemma {:induction false} LastVerifies(h: Hash, site: Site, w: Node, q: Run, clock: Clock)
    requires Guards(h, site) && ShortHash(h) && SitePlain(site) && InvAt(h, site, w, clock.b)
    requires clock.b <= clock.c <= clock.d && ValidStamp(clock.c) && ValidStamp(clock.d)
    requires Find(w.store.runs, q.runId) == Some(q) && q.phase.Running? && |q.events| == 5
             && NoTimerOf(w.timers, q.runId)
    ensures Verifies(h, w, Or(w, Verify(h, w, q.runId, TableAfter(2, q.inputs), clock)), q, TableAfter(2, q.inputs),
                     clock)
  {
    hide InvAt, Guards, ShortHash, Keeps, Find, Verify, NoTimerOf, Verifies, Destination;
    VerifyKeeps(h, site, w, q, clock, clock.b);
    VerifyStores(h, w, q, TableAfter(2, q.inputs), clock);
  }

  // ---------- a load ----------

  function RestartedOutcome(): Outcome {
    Outcome(OutcomeUnknown, T("The previous scripted simulation host ended before recording a final state. "
                              + "Stop this run before preparing another."), None)
  }

  /** What a load makes of a run that the file shows active. */
  predicate ClosedBy(q: Run, r: Run, u: int, v: int) {
    Follows(q, r, OutcomeUnknown, T("simulation_host_restarted"), u, v, Some(RestartedOutcome()), r.stopStatus)
  }

  predicate ShownActive(r: Run) { r.phase in {Ready, Dispatching, Running, Verifying} }

  lemma {:induction false} UnknownClosed(h: Hash, r: Run, u: int, v: int)
    ensures var e := Evolve(h, Unknown(r), OutcomeUnknown, RestartedKind(), u, v);
            e.Some? ==> ClosedBy(e.value, r, u, v) && e.value.runId == r.runId
  {
    EvolveFollows(h, Unknown(r), OutcomeUnknown, RestartedKind(), u, v);
    hide T, Evolve;
  }

  /** One of the runs due was closed as this record. */
  ghost predicate ClosedFrom(q: Run, due: seq<Run>) {
    exists r, u, v :: r in due && ShownActive(r) && q.runId == r.runId && ClosedBy(q, r, u, v)
  }

  lemma {:induction false} PutMembers(rs: seq<Run>, r: Run, x: Run)
    requires x in Put(rs, r)
    ensures x == r || x in rs
  {
    if rs != [] && rs[0].runId != r.runId && x != rs[0] { PutMembers(rs[1..], r, x); }
  }

  lemma {:induction false} CloseWrites(h: Hash, n: Node, r: Run, mark: Mark, x: Run)
    requires var w := CloseRun(h, n, r, mark); !w.Refused? && x in w.node.store.runs
    ensures x in n.store.runs || (x.runId == r.runId && ClosedBy(x, r, mark.u, mark.v))
  {
    hide Evolve, Checks, Put, ClosedBy, Digest;
    UnknownClosed(h, r, mark.u, mark.v);
    var e := Evolve(h, Unknown(r), OutcomeUnknown, RestartedKind(), mark.u, mark.v);
    PutMembers(n.store.runs, e.value, x);
  }

  lemma {:induction false} RecoverWrites(h: Hash, n: Node, rs: seq<Run>, marks: seq<Mark>, last: int, x: Run)
    requires x in Recover(h, n, rs, marks, last).store.runs
    ensures x in n.store.runs || ClosedFrom(x, rs)
    decreases |rs|
  {
    hide CloseRun, ClosedBy;
    if rs != [] {
      if !Interrupted(rs[0].phase) {
        RecoverWrites(h, n, rs[1..], marks, last, x);
      } else {
        var mark := FirstMark(marks, last);
        var w := CloseRun(h, n, rs[0], mark);
        if w.Done? { RecoverWrites(h, w.node, rs[1..], OtherMarks(marks), last, x); }
        if !w.Refused? && x in w.node.store.runs { CloseWrites(h, n, rs[0], mark, x); }
      }
    }
  }

  /** The record served afterwards is the logged one, closed if the log shows it active. */
  ghost predicate ServedAs(q: Run, r: Run) {
    if ShownActive(r) then exists u, v :: ClosedBy(q, r, u, v) else q == r
  }

  /**
   A load that succeeds serves exactly the logged runs: those the log shows active with an unknown
   outcome that says why, every other one unchanged.
   */
  lemma {:induction false} LoadServes(h: Hash, site: Site, n: Node, e: Step, clock: Clock, id: Text)
    requires SitePlain(site) && Inv(h, site, n) && Ticks(n.time, clock) && Loads(n, e)
    requires Next(h, site, n, e, clock).open
    ensures var m, logged := Next(h, site, n, e, clock), Replay(h, n.log).runs;
            && (Find(m.store.runs, id).Some? <==> Find(logged, id).Some?)
            && (Find(logged, id).Some? ==> ServedAs(Find(m.store.runs, id).value, Find(logged, id).value))
  {
    hide *;
    var m, logged := Next(h, site, n, e, clock), Replay(h, n.log).runs;
    LoadsKeep(h, site, n, e, clock);
    LoggedIs(h, n);
    LoadedKnown(h, site, n, m, clock, id);
    if Find(logged, id).Some? && ShownActive(Find(logged, id).value) {
      var q := Find(m.store.runs, id).value;
      LoadWrites(h, site, n, e, clock, q);
      LoggedOnce(h, site, n);
      ClosedIsOf(logged, q, Find(logged, id).value);
    }
  }

  lemma LoggedIs(h: Hash, n: Node)
    ensures Logged(h, n).runs == Replay(h, n.log).runs
  {
  }

  lemma {:induction false} LoggedOnce(h: Hash, site: Site, n: Node)
    requires Inv(h, site, n)
    ensures Distinct(Replay(h, n.log).runs)
  {
    hide Replay, TimersFit, NoneRepeated;
    InvSettled(h, site, n);
    SettledDistinct(h, site, n, n.time);
  }

  lemma {:induction false} LoadedKnown(h: Hash, site: Site, n: Node, m: Node, clock: Clock, id: Text)
    requires LoadedFrom(h, site, n, m, clock) && m.open && Logged(h, n).runs == Replay(h, n.log).runs
    ensures var logged := Replay(h, n.log).runs;
            && (Find(m.store.runs, id).Some? <==> Find(logged, id).Some?)
            && (Find(logged, id).Some? ==>
                  var q, r := Find(m.store.runs, id).value, Find(logged, id).value;
                  if ShownActive(r) then q.revision > r.revision && q in m.store.runs else ServedAs(q, r))
  {
    hide Replay, InvAt, Advances, OneOpen, Whole, Active, LoadEnds, ClosedBy, Matches, Adds;
    var logged := Replay(h, n.log).runs;
    assert LoadedAs(logged, m.store.runs, logged, id);
  }

  lemma {:induction false} LoadWrites(h: Hash, site: Site, n: Node, e: Step, clock: Clock, x: Run)
    requires Loads(n, e) && Next(h, site, n, e, clock).open && x in Next(h, site, n, e, clock).store.runs
    ensures var logged := Replay(h, n.log).runs; x in logged || ClosedFrom(x, logged)
  {
    hide Recover, Replay, ClosedFrom;
    var from := if e.HostRestarts? then n.(timers := []) else n;
    RecoverWrites(h, Reloaded(h, from), Replay(h, from.log).runs, clock.marks, clock.d, x);
  }

  lemma ClosedIsOf(logged: seq<Run>, q: Run, r: Run)
    requires Distinct(logged) && r in logged && q.runId == r.runId && q.revision > r.revision && ShownActive(r)
    requires q in logged || ClosedFrom(q, logged)
    ensures ServedAs(q, r)
  {
    hide ClosedBy;
  }
}
