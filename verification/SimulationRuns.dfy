/**
 The simulated Node over whole histories: any requests, timers, failing appends, interruptions
 and loads, in any order, under a clock that never goes back.
 */
module SimulationRuns {
  import opened Options
  import opened Texts
  import opened JsonText
  import opened Digests
  import opened RunContract
  import opened RunDepth
  import opened SimulationNode
  import opened SimulationRecords
  import opened SimulationLogs
  import opened SimulationStore
  import opened SimulationSafety

  // ---------- preparation ----------

  lemma {:induction false} NewRunAcceptable(site: Site, id: Text, inputs: Json, route: Text, snapshot: Text,
            approval: Text, clock: Clock, time: int)
    requires SitePlain(site) && Plain(id) && Plain(route) && Plain(snapshot) && Plain(approval)
    requires Trip(inputs) && JsonObject(inputs) && Ticks(time, clock)
    ensures Acceptable(NewRun(site, id, inputs, route, snapshot, approval, clock))
  {
    hide T, Detail, StepKind, JsonObject, Proper, EventType, Plain, ValidApproval, ValidEvent;
    FixedNamesPlain();
    var r := NewRun(site, id, inputs, route, snapshot, approval, clock);
    FirstEvent(clock.d);
    NewApproval(approval, clock, time);
    assert r.events == [Event(1, StepKind(0), clock.d, Detail())];
    assert PlainRecord(r) && CheckedRecord(r);
  }

  lemma FixedNamesPlain()
    ensures Plain(T("transfer-container")) && Plain(T("scripted-tray-transfer")) && Plain(T("simulation-table"))
  {
    hide T, Plain;
    TextPlain("transfer-container");
    TextPlain("scripted-tray-transfer");
    TextPlain("simulation-table");
  }

  lemma FirstEvent(at: int)
    requires ValidStamp(at)
    ensures ValidEvent(Event(1, StepKind(0), at, Detail()), 0) && Proper(Detail())
  {
    DetailValid();
    KindsValid();
  }

  lemma NewApproval(digest: Text, clock: Clock, time: int)
    requires Ticks(time, clock)
    ensures ValidApproval(Approval(digest, clock.a + 60000, None))
  {
  }

  lemma {:induction false} NewRunGood(h: Hash, site: Site, id: Text, inputs: Json, route: Text, snapshot: Text,
            approval: Text, clock: Clock, time: int)
    requires SitePlain(site) && Plain(id) && Plain(route) && Plain(snapshot) && Plain(approval)
    requires Trip(inputs) && JsonObject(inputs) && Ticks(time, clock)
    ensures var e := SealRun(h, NewRun(site, id, inputs, route, snapshot, approval, clock));
            && e.Some? && Good(h, e.value, clock.d) && e.value.runId == id && e.value.phase.WaitingForApproval?
            && e.value.approval == Approval(approval, clock.a + 60000, None) && e.value.routeReceiptDigest == route
  {
    var r := NewRun(site, id, inputs, route, snapshot, approval, clock);
    NewRunAcceptable(site, id, inputs, route, snapshot, approval, clock, time);
    NewRunStands(site, id, inputs, route, snapshot, approval, clock);
    hide NewRun, Normalized, Acceptable, Trip, SealRun, JsonObject, SitePlain, Plain, T, PlainRecord, Story, Standing,
         SimpleDetails;
    SealingBelieved(h, r);
    SealedIs(h, r);
    AcceptablePlain(r);
    var e := SealRun(h, r).value;
    assert PlainRecord(e) by { SealedPlain(r, e); }
    assert Standing(e) by { SealedStands(r, e); }
  }

  lemma {:induction false} NewRunStands(site: Site, id: Text, inputs: Json, route: Text, snapshot: Text,
            approval: Text, clock: Clock)
    requires clock.c <= clock.d
    ensures var r := NewRun(site, id, inputs, route, snapshot, approval, clock);
            && Story(r.phase, r.events) && Standing(r) && SimpleDetails(r.events) && r.mode.Simulation?
            && r.inputs == inputs
            && r.revision == |r.events| && r.updatedAt <= clock.d && r.runId == id && r.phase.WaitingForApproval?
            && r.approval == Approval(approval, clock.a + 60000, None) && r.routeReceiptDigest == route
  {
    hide T, StepKind, Detail;
  }

  lemma SealedPlain(r: Run, e: Run)
    requires PlainRecord(r) && e == r.(runDigest := e.runDigest)
    ensures PlainRecord(e)
  {
    hide Plain;
  }

  lemma SealedStands(r: Run, e: Run)
    requires Standing(r) && e == r.(runDigest := e.runDigest)
    ensures Standing(e)
  {
  }

  lemma AcceptablePlain(r: Run)
    requires Acceptable(r)
    ensures PlainRecord(r)
  {
  }

  lemma {:induction false} BadInputsRejected(h: Hash, r: Run)
    requires !JsonObject(r.inputs)
    ensures SealRun(h, r).Some? ==> !Checks(h, SealRun(h, r).value)
  {
    hide Sealed, Digest, Body, Fields, JsonObject;
  }

  predicate Awaits(n: Node, id: Text, approval: Approval, route: Text) {
    var r := Find(n.store.runs, id);
    && r.Some? && r.value.phase.WaitingForApproval? && r.value.approval == approval
    && r.value.routeReceiptDigest == route
  }

  /** A preparation is accepted exactly when the session is open, no run is open and its inputs are a bounded object. */
  lemma {:induction false} PrepareKeeps(h: Hash, site: Site, n: Node, id: Text, inputs: Json, route: Text,
            approval: Text, clock: Clock)
    requires ShortHash(h) && SitePlain(site) && Inv(h, site, n) && Ticks(n.time, clock)
    requires Plain(id) && Plain(route) && Plain(approval) && Trip(inputs) && Find(n.store.runs, id).None?
    ensures var w := Prepare(h, site, n, id, inputs, route, approval, clock);
            && (w.Refused? <==> !(n.open && !AnyOpen(n.store.runs) && JsonObject(inputs)))
            && (!w.Refused? ==> Keeps(h, site, n, w.node, clock.d)
                                && Awaits(w.node, id, Approval(approval, clock.a + 60000, None), route))
            && (!w.Refused? ==> (w.Done? <==> clock.first.Appended?) && w.node.open
                                && FileEnds(n, w.node, clock.first))
            && (!w.Refused? && InFile(clock.first) ==> id !in w.node.unlogged)
            && (!w.Refused? ==> OnlyChanges(h, n, w.node, id))
  {
    hide Good, SealRun, Checks, Replay, Put, JsonObject, NewRun, Preparation, T, Advances, Trip, Plain, Settled, Keeps,
         NoneRepeated, OnlyChanges;
    PreparationPrints(h, site);
    DigestPlain(h, Preparation(site));
    hide Digest, ShortHash;
    if n.open && !AnyOpen(n.store.runs) {
      var snapshot := Digest(h, Preparation(site)).value;
      var r := NewRun(site, id, inputs, route, snapshot, approval, clock);
      if JsonObject(inputs) {
        NewRunGood(h, site, id, inputs, route, snapshot, approval, clock, n.time);
        var e := SealRun(h, r).value;
        var m := PreparedWrite(h, site, n, e, clock);
      } else {
        NewInputs(site, id, inputs, route, snapshot, approval, clock);
        BadInputsRejected(h, r);
      }
    }
  }

  lemma {:induction false} PreparedWrite(h: Hash, site: Site, n: Node, e: Run, clock: Clock) returns (m: Node)
    requires SitePlain(site) && Inv(h, site, n) && Ticks(n.time, clock) && Good(h, e, clock.d)
    requires Digest(h, Preparation(site)).Some? && Find(n.store.runs, e.runId).None? && !AnyOpen(n.store.runs)
    ensures Write(h, n, e, Some(Preparation(site)), None, clock.first) == Wrote(clock.first, m)
    ensures Keeps(h, site, n, m, clock.d) && m.open == n.open && FileEnds(n, m, clock.first)
    ensures Find(m.store.runs, e.runId) == Some(e) && (InFile(clock.first) ==> e.runId !in m.unlogged)
    ensures OnlyChanges(h, n, m, e.runId)
  {
    TickOrder(n.time, clock);
    hide Ticks, Good, Preparation, Digest, Write, Keeps, Replay, Put, AnyOpen;
    InvAtSound(h, site, n, n.time);
    hide Sound;
    m := WriteSound(h, site, n, e, Some(Preparation(site)), None, clock.first, n.time, clock.d);
    TimersKnown(n.store.runs, n.timers, e.runId);
    PutFinds(n.store.runs, e, e.runId);
    hide NoTimerOf, Settled, NoneRepeated, OnlyChanges;
    ReplacedOnly(h, n, m, e, InFile(clock.first));
    WroteKeeps(h, site, n, m, e, InFile(clock.first), n.time, clock.d);
  }

  lemma {:induction false} TimersKnown(rs: seq<Run>, timers: seq<Timer>, id: Text)
    requires TimersFit(rs, timers) && Find(rs, id).None?
    ensures NoTimerOf(timers, id)
  {
    hide Expected;
    forall i | 0 <= i < |timers| ensures timers[i].id != id { assert TimerFits(rs, timers[i]); }
  }

  lemma NewInputs(site: Site, id: Text, inputs: Json, route: Text, snapshot: Text, approval: Text, clock: Clock)
    ensures NewRun(site, id, inputs, route, snapshot, approval, clock).inputs == inputs
  {
  }

  // ---------- one step ----------

  /** What the surroundings provide: fresh short ids and short digests. */
  ghost predicate Sensible(n: Node, e: Step) {
    e.DoPrepare? ==> Plain(e.id) && Plain(e.route) && Plain(e.approval) && Trip(e.inputs)
                     && Find(n.store.runs, e.id).None?
  }

  lemma {:induction false} FireKeeps(h: Hash, site: Site, n: Node, k: nat, clock: Clock, interrupted: bool)
    requires Guards(h, site) && ShortHash(h) && SitePlain(site) && Inv(h, site, n) && Ticks(n.time, clock)
             && k < |n.timers|
    ensures Keeps(h, site, n, Fire(h, n, k, clock, interrupted), clock.d)
  {
    hide Keeps, Guards, ShortHash, Ticks, Evolve, WriteEvolved, Verify, SimulationNode.Move, StepKind, InvAt;
    TickOrder(n.time, clock);
    if !Due(n, k) {
      UnqueueKeeps(h, site, n, k, n.time);
      KeepsLater(h, site, n, Unqueue(n, k), n.time, clock.d);
    } else {
      DueIndex(h, site, n, k);
      hide Fire, Due;
      if n.timers[k].index < 2 {
        EarlyStep(h, site, n, k, clock, interrupted);
      } else if interrupted || !clock.first.Appended? {
        LastInterrupted(h, site, n, k, clock, interrupted);
      } else {
        LastStep(h, site, n, k, clock);
      }
    }
  }

  lemma {:induction false} DueIndex(h: Hash, site: Site, n: Node, k: nat)
    requires Inv(h, site, n) && k < |n.timers|
    ensures n.timers[k].index <= 2
  {
    hide Sound;
    assert TimerFits(n.store.runs, n.timers[k]);
  }

  /** The steps that read the log back: a restart, and opening the conversation again when that is not refused. */
  predicate Loads(n: Node, e: Step) {
    e.HostRestarts? || (e.SessionReopens? && n.open && !AnyOpen(n.store.runs) && !n.torn)
  }

  lemma {:induction false} SameAtAnyTime(h: Hash, site: Site, n: Node, time: int, mark: int)
    ensures var m := n.(time := mark);
            && (InvAt(h, site, m, time) <==> InvAt(h, site, n, time)) && Logged(h, m) == Logged(h, n)
  {
    hide Holds, Replay, TimersFit, OneTimerEach, Behind, Aligned, LinesPass, NoneRepeated;
  }

  lemma {:induction false} KeepsAtAnyTime(h: Hash, site: Site, n: Node, m: Node, time: int, mark: int)
    requires Keeps(h, site, n, m, time)
    ensures Keeps(h, site, n, m.(time := mark), time)
  {
    hide InvAt, Replay, Advances, OneOpen;
    SameAtAnyTime(h, site, m, time, mark);
  }

  /** A request or a timer, answered, refused or ended by an append that throws. */
  lemma {:induction false} OperationKeeps(h: Hash, site: Site, n: Node, e: Step, clock: Clock)
    requires Guards(h, site) && ShortHash(h) && SitePlain(site) && Inv(h, site, n) && Sensible(n, e)
             && Ticks(n.time, clock)
    requires !Loads(n, e)
    ensures Keeps(h, site, n, Next(h, site, n, e, clock), clock.d)
  {
    hide Inv, Keeps, Prepare, Approve, Stop, Fire, Load, Guards, ShortHash, AnyOpen, Ticks, Find, Plain, Trip;
    var m := Act(h, site, n, e, clock);
    SameKeeps(h, site, n, clock);
    match e {
      case DoPrepare(id, inputs, route, approval) => PrepareKeeps(h, site, n, id, inputs, route, approval, clock);
      case DoApprove(id, runDigest, approvalDigest, approved, current) =>
        ApproveKeeps(h, site, n, id, runDigest, approvalDigest, approved, current, clock);
      case DoStop(id) => StopKeeps(h, site, n, id, clock);
      case TimerFires(k, interrupted) => if k < |n.timers| { FireKeeps(h, site, n, k, clock, interrupted); }
      case SessionReopens =>
    }
    hide Act;
    KeepsAtAnyTime(h, site, n, m, clock.d, clock.d);
  }

  lemma SameKeeps(h: Hash, site: Site, n: Node, clock: Clock)
    requires Inv(h, site, n) && Ticks(n.time, clock)
    ensures Keeps(h, site, n, n, clock.d)
  {
    hide InvAt, Keeps;
    KeepsSame(h, site, n, n.time, clock.d);
  }

  /** Stop leaves a known run terminal in memory, whatever becomes of its append. */
  lemma {:induction false} StopCloses(h: Hash, site: Site, n: Node, id: Text, clock: Clock)
    requires SitePlain(site) && Inv(h, site, n) && Ticks(n.time, clock)
    ensures n.open && Find(n.store.runs, id).Some? ==> Closed(Next(h, site, n, DoStop(id), clock), id)
  {
    hide Inv, Stop, Ticks, Keeps, Terminal;
    StopKeeps(h, site, n, id, clock);
  }

  lemma {:induction false} PreparedIff(h: Hash, site: Site, n: Node, id: Text, inputs: Json, route: Text,
            approval: Text, clock: Clock)
    requires ShortHash(h) && SitePlain(site) && Inv(h, site, n) && Ticks(n.time, clock)
             && Sensible(n, DoPrepare(id, inputs, route, approval))
    ensures Find(Next(h, site, n, DoPrepare(id, inputs, route, approval), clock).store.runs, id).Some?
            <==> n.open && !AnyOpen(n.store.runs) && JsonObject(inputs)
  {
    hide Inv, Prepare, Ticks, Keeps, JsonObject, AnyOpen, Plain, Trip, ShortHash;
    PrepareKeeps(h, site, n, id, inputs, route, approval, clock);
  }

  lemma InvNow(h: Hash, site: Site, n: Node)
    requires Inv(h, site, n)
    ensures InvAt(h, site, n, n.time)
  {
    hide InvAt;
  }

  lemma InvSettled(h: Hash, site: Site, n: Node)
    requires Inv(h, site, n)
    ensures Settled(h, site, n, n.time)
  {
    hide Settled;
  }

  /** What a load leaves, by what the file holds and what becomes of its own appends. */
  ghost predicate LoadedFrom(h: Hash, site: Site, n: Node, m: Node, clock: Clock) {
    var logged := Logged(h, n).runs;
    && InvAt(h, site, m, clock.d) && Advances(logged, Logged(h, m).runs) && Advances(logged, m.store.runs)
    && (OneOpen(logged) && OneOpen(n.store.runs) ==> OneOpen(m.store.runs))
    && (m.open <==> !n.torn && Whole(clock.marks, Active(logged)))
    && (m.open ==> m.unlogged == {} && AllLoaded(logged, m.store.runs, logged) && LoadEnds(n, m, Active(logged)))
  }

  /**
   A load succeeds exactly when the file parses and none of its appends fails; then it serves exactly
   what the log says, active runs closed.
   */
  lemma {:induction false} LoadsKeep(h: Hash, site: Site, n: Node, e: Step, clock: Clock)
    requires SitePlain(site) && Inv(h, site, n) && Ticks(n.time, clock) && Loads(n, e)
    ensures LoadedFrom(h, site, n, Next(h, site, n, e, clock), clock)
  {
    hide Inv, Load, Restart, Settled, Ticks, Prepare, Approve, Stop, Fire, AnyOpen, Advances, Replay, AllLoaded, Whole,
         Active, NoneRepeated, OneOpen;
    InvSettled(h, site, n);
    var m := if e.HostRestarts? then Restart(h, n, clock) else Load(h, n, clock);
    if e.HostRestarts? { RestartKeeps(h, site, n, clock, n.time); } else { LoadKeeps(h, site, n, clock, n.time); }
    SameAtAnyTime(h, site, m, clock.d, clock.d);
  }

  /**
   Every step keeps the invariant and moves the log only forward; every step but a load moves every
   run in memory only forward.
   */
  lemma {:induction false} NextKeeps(h: Hash, site: Site, n: Node, e: Step, clock: Clock)
    requires Guards(h, site) && ShortHash(h) && SitePlain(site) && Inv(h, site, n) && Sensible(n, e)
             && Ticks(n.time, clock)
    ensures var m := Next(h, site, n, e, clock);
            && Inv(h, site, m) && m.time == clock.d && Advances(Logged(h, n).runs, Logged(h, m).runs)
            && (!Loads(n, e) ==> Advances(n.store.runs, m.store.runs)
                                 && (OneOpen(n.store.runs) ==> OneOpen(m.store.runs)))
  {
    assert Next(h, site, n, e, clock).time == clock.d by { hide Act; }
    hide Next, Loads, InvAt, Advances, Replay, OneOpen, Guards, ShortHash, Ticks, Sensible, AllLoaded, Whole, Active;
    if Loads(n, e) { LoadsKeep(h, site, n, e, clock); } else { OperationKeeps(h, site, n, e, clock); }
  }

  // ---------- whole histories ----------

  datatype Move = Move(step: Step, clock: Clock)

  const Empty := Node(EmptyStore, [], [], 0, true, false, false, {})

  /** The state after the first i moves of an empty session. */
  function After(h: Hash, site: Site, moves: seq<Move>, i: nat): Node
    requires i <= |moves|
  {
    if i == 0 then Empty
    else Next(h, site, After(h, site, moves, i - 1), moves[i - 1].step, moves[i - 1].clock)
  }

  /** Time starts at the epoch, every clock reading is no earlier than the one before, and the surroundings behave. */
  ghost predicate History(h: Hash, site: Site, moves: seq<Move>) {
    && Guards(h, site) && ShortHash(h) && SitePlain(site)
    && forall i :: 0 <= i < |moves| ==> MoveFits(After(h, site, moves, i), moves[i])
  }

  ghost predicate MoveFits(n: Node, m: Move) { Ticks(n.time, m.clock) && Sensible(n, m.step) }

  lemma MoveParts(n: Node, m: Move)
    requires MoveFits(n, m)
    ensures Ticks(n.time, m.clock) && Sensible(n, m.step)
  {
  }

  lemma OneStep(h: Hash, site: Site, moves: seq<Move>, i: nat)
    requires History(h, site, moves) && i < |moves|
    ensures After(h, site, moves, i + 1) == Next(h, site, After(h, site, moves, i), moves[i].step, moves[i].clock)
    ensures MoveFits(After(h, site, moves, i), moves[i]) && Guards(h, site) && ShortHash(h) && SitePlain(site)
  {
    hide Next, Guards, ShortHash;
  }

  lemma {:induction false} EmptyInv(h: Hash, site: Site)
    ensures Inv(h, site, Empty)
  {
    hide Preparation;
    assert Logged(h, Empty) == EmptyStore;
    AlignedSelf(h, site, EmptyStore);
    forall id ensures Lags([], [], {}, id) { }
  }

  /** The invariant holds in every reachable state, whatever appends fail. */
  lemma {:induction false} ReachableInv(h: Hash, site: Site, moves: seq<Move>, i: nat)
    requires History(h, site, moves) && i <= |moves|
    ensures Inv(h, site, After(h, site, moves, i))
  {
    hide Inv, Next, Guards, ShortHash, Advances;
    if i == 0 {
      EmptyInv(h, site);
    } else {
      ReachableInv(h, site, moves, i - 1);
      NextKeeps(h, site, After(h, site, moves, i - 1), moves[i - 1].step, moves[i - 1].clock);
    }
  }

  /**
   Between any two moments each logged run stays as it is or is replaced by a newer record that
   extends it; terminal ones never change.
   */
  lemma {:induction false} LogMovesForward(h: Hash, site: Site, moves: seq<Move>, i: nat, j: nat)
    requires History(h, site, moves) && i <= j <= |moves|
    ensures Advances(Logged(h, After(h, site, moves, i)).runs, Logged(h, After(h, site, moves, j)).runs)
    decreases j
  {
    hide *;
    var n := After(h, site, moves, i);
    if i == j {
      AdvancesSelf(Logged(h, n).runs);
    } else {
      var p := After(h, site, moves, j - 1);
      LogMovesForward(h, site, moves, i, j - 1);
      ReachableInv(h, site, moves, j - 1);
      OneStep(h, site, moves, j - 1);
      MoveParts(p, moves[j - 1]);
      NextKeeps(h, site, p, moves[j - 1].step, moves[j - 1].clock);
      AdvancesTransitive(Logged(h, n).runs, Logged(h, p).runs, Logged(h, After(h, site, moves, j)).runs);
    }
  }

  predicate NoLoad(h: Hash, site: Site, moves: seq<Move>, i: nat, j: nat)
    requires i <= j <= |moves|
  {
    forall k :: i <= k < j ==> !Loads(After(h, site, moves, k), moves[k].step)
  }

  lemma {:induction false} ForwardUntilLoad(h: Hash, site: Site, moves: seq<Move>, i: nat, j: nat)
    requires History(h, site, moves) && i <= j <= |moves| && NoLoad(h, site, moves, i, j)
    ensures Advances(After(h, site, moves, i).store.runs, After(h, site, moves, j).store.runs)
    decreases j
  {
    hide Inv, Next, Guards, ShortHash, Advances, Replay, Loads, History, After;
    var n := After(h, site, moves, i);
    if i == j {
      AdvancesSelf(n.store.runs);
    } else {
      var p := After(h, site, moves, j - 1);
      ForwardUntilLoad(h, site, moves, i, j - 1);
      assert !Loads(p, moves[j - 1].step);
      hide NoLoad;
      ReachableInv(h, site, moves, j - 1);
      OneStep(h, site, moves, j - 1);
      NextKeeps(h, site, p, moves[j - 1].step, moves[j - 1].clock);
      AdvancesTransitive(n.store.runs, p.store.runs, After(h, site, moves, j).store.runs);
    }
  }

  /**
   A run in memory whose latest write was logged, or after which nothing was loaded, is at every
   later moment the same record or a newer one that extends it; a terminal one never changes.
   */
  lemma {:induction false} RunsMoveForward(h: Hash, site: Site, moves: seq<Move>, i: nat, j: nat, r: Run)
    requires History(h, site, moves) && i <= j <= |moves| && r in After(h, site, moves, i).store.runs
    requires r.runId !in After(h, site, moves, i).unlogged || NoLoad(h, site, moves, i, j)
    ensures Succeeded(After(h, site, moves, j).store.runs, r)
  {
    hide After, History, Inv, NoLoad, Replay;
    var n, m := After(h, site, moves, i), After(h, site, moves, j);
    if r.runId !in n.unlogged {
      ReachableInv(h, site, moves, i);
      HeldIsLogged(h, site, n, r);
      LogMovesForward(h, site, moves, i, j);
      ReachableInv(h, site, moves, j);
      NeverBehind(h, site, m);
      AdvancesTransitive(Logged(h, n).runs, Logged(h, m).runs, m.store.runs);
    } else {
      ForwardUntilLoad(h, site, moves, i, j);
    }
  }

  lemma {:induction false} NeverBehind(h: Hash, site: Site, n: Node)
    requires Inv(h, site, n)
    ensures Advances(Logged(h, n).runs, n.store.runs)
  {
    hide Settled, Replay, Advances;
    SettledBehind(h, site, n, n.time);
  }

  lemma {:induction false} HeldIsLogged(h: Hash, site: Site, n: Node, r: Run)
    requires Inv(h, site, n) && r in n.store.runs && r.runId !in n.unlogged
    ensures r in Logged(h, n).runs
  {
    hide Settled, Replay;
    FoundOnly(h, site, n, r, n.time);
    SettledLags(h, site, n, r.runId, n.time);
  }

  /**
   At a load that succeeds, a served record is served again, or a newer one that extends it,
   exactly when its latest write was logged.
   */
  lemma {:induction false} TakenBackIff(h: Hash, site: Site, moves: seq<Move>, i: nat, r: Run)
    requires History(h, site, moves) && i < |moves| && Loads(After(h, site, moves, i), moves[i].step)
    requires After(h, site, moves, i).open && After(h, site, moves, i + 1).open
             && r in After(h, site, moves, i).store.runs
    ensures Succeeded(After(h, site, moves, i + 1).store.runs, r) <==> r.runId !in After(h, site, moves, i).unlogged
  {
    hide *;
    var n, m, clock := After(h, site, moves, i), After(h, site, moves, i + 1), moves[i].clock;
    OneStep(h, site, moves, i);
    MoveParts(n, moves[i]);
    ReachableInv(h, site, moves, i);
    LoadsKeep(h, site, n, moves[i].step, clock);
    LoadedParts(h, site, n, m, clock);
    InvNow(h, site, n);
    LoadTakesBack(h, site, n, m, r, n.time, clock.d);
  }

  lemma LoadedParts(h: Hash, site: Site, n: Node, m: Node, clock: Clock)
    requires LoadedFrom(h, site, n, m, clock) && m.open
    ensures InvAt(h, site, m, clock.d) && Advances(Logged(h, n).runs, m.store.runs)
    ensures AllLoaded(Logged(h, n).runs, m.store.runs, Logged(h, n).runs)
  {
    hide InvAt, Advances, AllLoaded, Replay, OneOpen, Active, Whole;
  }

  /** A load that succeeds takes back nothing exactly when no run's latest write is missing from the log. */
  lemma {:induction false} NothingTakenBackIff(h: Hash, site: Site, moves: seq<Move>, i: nat)
    requires History(h, site, moves) && i < |moves| && Loads(After(h, site, moves, i), moves[i].step)
    requires After(h, site, moves, i).open && After(h, site, moves, i + 1).open
    ensures Advances(After(h, site, moves, i).store.runs, After(h, site, moves, i + 1).store.runs)
            <==> After(h, site, moves, i).unlogged == {}
  {
    hide After, History, Loads, Succeeded, Replay, Inv;
    var n, m := After(h, site, moves, i), After(h, site, moves, i + 1);
    forall r | r in n.store.runs ensures Succeeded(m.store.runs, r) <==> r.runId !in n.unlogged {
      TakenBackIff(h, site, moves, i, r);
    }
    if n.unlogged != {} {
      var id :| id in n.unlogged;
      ReachableInv(h, site, moves, i);
      assert Find(n.store.runs, id).Some? by {
        InvSettled(h, site, n);
        SettledLags(h, site, n, id, n.time) by { hide Settled; }
      }
      var r := Find(n.store.runs, id).value;
      assert !Succeeded(m.store.runs, r);
    }
  }

  /** What memory holds is believed, numbers its events with its revision, and is never FAILED. */
  lemma {:induction false} ServedRunsBelieved(h: Hash, site: Site, moves: seq<Move>, i: nat)
    requires History(h, site, moves) && i <= |moves|
    ensures forall r :: r in After(h, site, moves, i).store.runs ==>
              Normalized(h, r) && r.revision == |r.events| && !r.phase.Failed?
  {
    hide After, Inv, History, Normalized;
    ReachableInv(h, site, moves, i);
    var n := After(h, site, moves, i);
    forall r | r in n.store.runs ensures Normalized(h, r) && r.revision == |r.events| && !r.phase.Failed? {
      InvGood(h, site, n, r);
      GoodIsBelieved(h, r, n.time);
    }
  }

  ghost predicate NeverShowsTwo(h: Hash, site: Site, moves: seq<Move>, i: nat)
    requires i <= |moves|
  {
    forall k :: 0 <= k < i && Loads(After(h, site, moves, k), moves[k].step) ==>
                  OneOpen(Logged(h, After(h, site, moves, k)).runs)
  }

  lemma {:induction false} NeverBefore(h: Hash, site: Site, moves: seq<Move>, i: nat)
    requires 0 < i <= |moves| && NeverShowsTwo(h, site, moves, i)
    ensures NeverShowsTwo(h, site, moves, i - 1)
    ensures var n := After(h, site, moves, i - 1); Loads(n, moves[i - 1].step) ==> OneOpen(Logged(h, n).runs)
  {
    hide After, Loads, OneOpen, Replay;
  }

  /** At most one run is open as long as the log never shows two open runs to a load. */
  lemma {:induction false} AtMostOneOpen(h: Hash, site: Site, moves: seq<Move>, i: nat)
    requires History(h, site, moves) && i <= |moves| && NeverShowsTwo(h, site, moves, i)
    ensures OneOpen(After(h, site, moves, i).store.runs)
  {
    if i == 0 {
      assert After(h, site, moves, 0) == Empty;
    } else {
      hide *;
      var n, e, clock := After(h, site, moves, i - 1), moves[i - 1].step, moves[i - 1].clock;
      NeverBefore(h, site, moves, i);
      AtMostOneOpen(h, site, moves, i - 1);
      OneStep(h, site, moves, i - 1);
      MoveParts(n, moves[i - 1]);
      ReachableInv(h, site, moves, i - 1);
      if Loads(n, e) { LoadKeepsOneOpen(h, site, n, e, clock); } else { NextKeeps(h, site, n, e, clock); }
    }
  }

  lemma {:induction false} LoadKeepsOneOpen(h: Hash, site: Site, n: Node, e: Step, clock: Clock)
    requires SitePlain(site) && Inv(h, site, n) && Ticks(n.time, clock) && Loads(n, e)
    requires OneOpen(Logged(h, n).runs) && OneOpen(n.store.runs)
    ensures OneOpen(Next(h, site, n, e, clock).store.runs)
  {
    hide Inv, Next, Loads, InvAt, Ticks, Replay, Advances, AllLoaded, Whole, Active, OneOpen;
    LoadsKeep(h, site, n, e, clock);
  }

  /** A load that succeeds leaves at most one run open exactly when the log shows at most one. */
  lemma {:induction false} LoadLeavesOneOpenIff(h: Hash, site: Site, n: Node, m: Node, clock: Clock)
    requires Inv(h, site, n) && LoadedFrom(h, site, n, m, clock) && m.open && OneOpen(n.store.runs)
    ensures OneOpen(m.store.runs) <==> OneOpen(Logged(h, n).runs)
  {
    hide Settled, Replay, Advances, AllLoaded, Active, Whole, NoneRepeated, OneOpen;
    InvSettled(h, site, n);
    SettledDistinct(h, site, n, n.time);
    if OneOpen(m.store.runs) { LoadedOneOpen(Logged(h, n).runs, m.store.runs); }
  }

  lemma GoodIsBelieved(h: Hash, r: Run, time: int)
    requires Good(h, r, time)
    ensures Normalized(h, r) && r.revision == |r.events| && !r.phase.Failed?
  {
    hide Normalized, Trip, PlainRecord;
  }

  /** A run ends in verified success only after its approval and its three steps, in that order. */
  lemma {:induction false} SuccessFollowsTheScript(h: Hash, site: Site, moves: seq<Move>, i: nat, r: Run)
    requires History(h, site, moves) && i <= |moves| && r in After(h, site, moves, i).store.runs
             && r.phase.VerifiedSuccess?
    ensures WholeScript(r)
  {
    hide After, Inv, History, WholeScript;
    ReachableInv(h, site, moves, i);
    InvGood(h, site, After(h, site, moves, i), r);
    GoodScript(h, r, After(h, site, moves, i).time);
  }

  /** Prepared, approved in time, picked, transferred, placed and verified, in that order and nothing else. */
  ghost predicate WholeScript(r: Run) {
    && |r.events| == 6 && (forall k :: 0 <= k < 6 ==> r.events[k].kind == StepKind(k))
    && r.approval.approvedAt.Some? && r.approval.approvedAt.value <= r.approval.expiresAt
  }

  lemma {:induction false} InvGood(h: Hash, site: Site, n: Node, r: Run)
    requires Inv(h, site, n) && r in n.store.runs
    ensures Good(h, r, n.time)
  {
    InvNow(h, site, n);
    hide Inv, Sound, TimersFit, NoneRepeated;
    SoundGood(h, site, n, r, n.time);
  }

  lemma {:induction false} GoodScript(h: Hash, r: Run, time: int)
    requires Good(h, r, time) && r.phase.VerifiedSuccess?
    ensures WholeScript(r)
  {
    hide T, StepKind, Sealed, Trip, PlainRecord;
  }

  /**
   Of two records of one run, served at two moments, the later extends the earlier when the
   earlier was logged or nothing was loaded between them.
   */
  lemma {:induction false} ServedRecordsAgree(h: Hash, site: Site, moves: seq<Move>, i: nat, j: nat, r: Run, s: Run)
    requires History(h, site, moves) && i <= j <= |moves|
    requires r in After(h, site, moves, i).store.runs && s in After(h, site, moves, j).store.runs && r.runId == s.runId
    requires r.runId !in After(h, site, moves, i).unlogged || NoLoad(h, site, moves, i, j)
    ensures Matches(s, r) && (s == r || s.revision > r.revision)
  {
    hide After, Inv, Advances, History, Matches, NoLoad, Terminal, Replay, Good, Loads;
    var n, m := After(h, site, moves, i), After(h, site, moves, j);
    RunsMoveForward(h, site, moves, i, j, r);
    var q :| q in m.store.runs && Continues(q, r);
    ReachableInv(h, site, moves, j);
    assert q == s by {
      InvSettled(h, site, m);
      FoundOnly(h, site, m, q, m.time) by { hide Settled; }
      FoundOnly(h, site, m, s, m.time) by { hide Settled; }
    }
    ReachableInv(h, site, moves, i);
    InvGood(h, site, n, r);
    GoodMatchesItself(h, r, n.time);
  }

  lemma {:induction false} GoodMatchesItself(h: Hash, r: Run, time: int)
    requires Good(h, r, time)
    ensures Matches(r, r)
  {
    DetailValid();
    ReflexiveIffShallow(h, r);
  }

  // ---------- the log ----------

  /**
   Replaying the log gives exactly the runs, their order, the preparations and the evidence of
   memory exactly when no run's latest write is missing from it; no line is ever refused.
   */
  lemma {:induction false} LogRebuildsMemory(h: Hash, site: Site, moves: seq<Move>, i: nat)
    requires History(h, site, moves) && i <= |moves|
    ensures var n := After(h, site, moves, i);
            && (Logged(h, n) == n.store <==> n.unlogged == {})
            && (forall id :: Find(Logged(h, n).runs, id) == Find(n.store.runs, id) <==> id !in n.unlogged)
            && forall l :: l in n.log ==> Checks(h, l.run)
  {
    hide After, History, Replay, Aligned, Holds, Behind, Checks, TimersFit, NoneRepeated, Find;
    var n := After(h, site, moves, i);
    ReachableInv(h, site, moves, i);
    LogIsMemory(h, site, n, n.time);
    forall id ensures Find(Logged(h, n).runs, id) == Find(n.store.runs, id) <==> id !in n.unlogged {
      LoggedIffNotMissing(h, site, n, n.time, id);
    }
  }

  /** No append of the step leaves its line out of the file. */
  predicate NoneLost(clock: Clock) {
    InFile(clock.first) && InFile(clock.second) && forall i :: 0 <= i < |clock.marks| ==> InFile(clock.marks[i].fate)
  }

  lemma {:induction false} RecoverLosesNone(h: Hash, n: Node, rs: seq<Run>, marks: seq<Mark>, last: int)
    requires n.unlogged == {} && forall i :: 0 <= i < |marks| ==> InFile(marks[i].fate)
    ensures Recover(h, n, rs, marks, last).unlogged == {}
    decreases |rs|
  {
    hide Evolve, Record, Checks;
    if rs != [] {
      if !Interrupted(rs[0].phase) {
        RecoverLosesNone(h, n, rs[1..], marks, last);
      } else {
        var w := CloseRun(h, n, rs[0], FirstMark(marks, last));
        if w.Done? { RecoverLosesNone(h, w.node, rs[1..], OtherMarks(marks), last); }
      }
    }
  }

  lemma {:induction false} WriteLosesNone(h: Hash, n: Node, next: Option<Run>, evidence: Option<Json>, fate: Append)
    requires n.unlogged == {} && InFile(fate)
    ensures Or(n, WriteEvolved(h, n, next, evidence, fate)).unlogged == {}
  {
    hide Record, Checks;
  }

  lemma {:induction false} FireLosesNone(h: Hash, n: Node, k: nat, clock: Clock, interrupted: bool)
    requires n.unlogged == {} && InFile(clock.first) && InFile(clock.second) && k < |n.timers|
    ensures Fire(h, n, k, clock, interrupted).unlogged == {}
  {
    hide Record, Checks, Evolve, Digest, Evidence, StepKind, SimulationNode.Move, CheckReason, Verified, WriteEvolved;
    var t := n.timers[k];
    var r := Find(n.store.runs, t.id);
    if r.Some? {
      var next := Evolve(h, r.value, Running, StepKind(t.index + 2), clock.a, clock.b);
      WriteLosesNone(h, Unqueue(n, k), next, None, clock.first);
      var w := WriteEvolved(h, Unqueue(n, k), next, None, clock.first);
      if w.Done? { VerifyLosesNone(h, w.node, t.id, SimulationNode.Move(t.virtual, t.index, r.value.inputs), clock); }
      hide Verify;
    }
  }

  lemma {:induction false} VerifyLosesNone(h: Hash, n: Node, id: Text, v: Virtual, clock: Clock)
    requires n.unlogged == {} && InFile(clock.second)
    ensures Or(n, Verify(h, n, id, v, clock)).unlogged == {}
  {
    hide Record, Checks, Evolve, Digest, Evidence, StepKind, CheckReason, Verified;
  }

  lemma {:induction false} StepLosesNone(h: Hash, site: Site, n: Node, e: Step, clock: Clock)
    requires n.unlogged == {} && NoneLost(clock)
    ensures Next(h, site, n, e, clock).unlogged == {}
  {
    hide Record, Checks, Evolve, SealRun, Digest, Preparation, Replay, Fire, Recover, Approved, Stopped, NewRun;
    match e {
      case TimerFires(k, interrupted) => if k < |n.timers| { FireLosesNone(h, n, k, clock, interrupted); }
      case HostRestarts => RecoverLosesNone(h, Reloaded(h, n.(timers := [])), Replay(h, n.log).runs, clock.marks,
              clock.d);
      case SessionReopens => RecoverLosesNone(h, Reloaded(h, n), Replay(h, n.log).runs, clock.marks, clock.d);
      case _ =>
    }
  }

  /** The lines of all appends between two moments reach the file. */
  predicate NoneLostBetween(moves: seq<Move>, i: nat, j: nat)
    requires i <= j <= |moves|
  {
    forall k :: i <= k < j ==> NoneLost(moves[k].clock)
  }

  lemma {:induction false} NoneMissing(h: Hash, site: Site, moves: seq<Move>, i: nat, j: nat)
    requires i <= j <= |moves| && After(h, site, moves, i).unlogged == {} && NoneLostBetween(moves, i, j)
    ensures After(h, site, moves, j).unlogged == {}
    decreases j
  {
    if i < j {
      NoneMissing(h, site, moves, i, j - 1);
      hide NoneLost, Next;
      StepLosesNone(h, site, After(h, site, moves, j - 1), moves[j - 1].step, moves[j - 1].clock);
    }
  }

  /**
   From a moment at which nothing is missing, such as the start or a load that succeeded, the log is
   exactly memory as long as every append reaches the file, whether or not it throws.
   */
  lemma {:induction false} NothingLostNothingMissing(h: Hash, site: Site, moves: seq<Move>, i: nat, j: nat)
    requires History(h, site, moves) && i <= j <= |moves|
    requires After(h, site, moves, i).unlogged == {} && NoneLostBetween(moves, i, j)
    ensures Logged(h, After(h, site, moves, j)) == After(h, site, moves, j).store
  {
    NoneMissing(h, site, moves, i, j);
    hide *;
    LogRebuildsMemory(h, site, moves, j);
  }

  predicate AllAppended(marks: seq<Mark>) { forall i :: 0 <= i < |marks| ==> marks[i].fate.Appended? }

  /**
   The first restart closes every run the log shows active, with exactly one more event each; a
   second one changes nothing. It loads exactly when the closing did not join a line that was cut.
   */
  lemma {:induction false} RestartTwice(h: Hash, site: Site, moves: seq<Move>, i: nat, c0: Clock, c1: Clock)
    requires History(h, site, moves) && i <= |moves| && !After(h, site, moves, i).torn
    requires Ticks(After(h, site, moves, i).time, c0) && Ticks(c0.d, c1) && AllAppended(c0.marks)
             && AllAppended(c1.marks)
    ensures var n := After(h, site, moves, i);
            var once := Next(h, site, n, HostRestarts, c0);
            var twice := Next(h, site, once, HostRestarts, c1);
            && once.open && AllLoaded(Logged(h, n).runs, once.store.runs, Logged(h, n).runs)
            && (twice.open <==> !(n.cut && Active(Logged(h, n).runs) > 0))
            && twice.store == once.store && twice.log == once.log
  {
    assert SitePlain(site);
    ReachableInv(h, site, moves, i);
    hide After, History, Guards, ShortHash, Ticks, Inv, Next, AllLoaded, Active;
    SecondRestart(h, site, After(h, site, moves, i), c0, c1);
  }

  lemma {:induction false} SecondRestart(h: Hash, site: Site, n: Node, c0: Clock, c1: Clock)
    requires Inv(h, site, n) && SitePlain(site) && !n.torn
    requires Ticks(n.time, c0) && Ticks(c0.d, c1) && AllAppended(c0.marks) && AllAppended(c1.marks)
    ensures var once := Next(h, site, n, HostRestarts, c0);
            var twice := Next(h, site, once, HostRestarts, c1);
            && once.open && AllLoaded(Logged(h, n).runs, once.store.runs, Logged(h, n).runs)
            && (twice.open <==> !(n.cut && Active(Logged(h, n).runs) > 0))
            && twice.store == once.store && twice.log == once.log
  {
    hide *;
    var once := FirstRestart(h, site, n, c0);
    if once.torn { TornRestart(h, site, once, c1); } else { IdleRestart(h, site, once, c1); }
  }

  /** A restart that loads leaves nothing missing and no run active. */
  lemma {:induction false} FirstRestart(h: Hash, site: Site, n: Node, clock: Clock) returns (m: Node)
    requires Inv(h, site, n) && SitePlain(site) && !n.torn && Ticks(n.time, clock) && AllAppended(clock.marks)
    ensures m == Next(h, site, n, HostRestarts, clock) && Inv(h, site, m) && m.open && m.unlogged == {}
    ensures m.torn == (n.cut && Active(Logged(h, n).runs) > 0)
    ensures AllLoaded(Logged(h, n).runs, m.store.runs, Logged(h, n).runs)
    ensures forall x :: x in m.store.runs ==> !Interrupted(x.phase)
  {
    hide Ticks, InvAt, Advances, AllLoaded, Replay, OneOpen, Active, Restart;
    LoadsKeep(h, site, n, HostRestarts, clock);
    m := Next(h, site, n, HostRestarts, clock);
    assert m.time == clock.d;
    hide Next;
    InvSettled(h, site, m);
    SettledDistinct(h, site, m, m.time);
    LoadedIdle(Logged(h, n).runs, m.store.runs);
  }

  /** Nothing missing and no run active: a restart changes nothing but the timers. */
  lemma {:induction false} IdleRestart(h: Hash, site: Site, n: Node, clock: Clock)
    requires Inv(h, site, n) && n.unlogged == {} && !n.torn && forall x :: x in n.store.runs ==> !Interrupted(x.phase)
    ensures var m := Next(h, site, n, HostRestarts, clock); m.open && m.store == n.store && m.log == n.log
  {
    assert Logged(h, n) == n.store by {
      hide InvAt, Replay;
      InvNow(h, site, n);
      InvAtSound(h, site, n, n.time);
      LogIsMemory(h, site, n, n.time);
    }
    hide Inv, Replay, Recover;
    RecoverNothing(h, Reloaded(h, n.(timers := [])), n.store.runs, clock.marks, clock.d);
  }

  lemma TornRestart(h: Hash, site: Site, n: Node, clock: Clock)
    requires n.torn
    ensures var m := Next(h, site, n, HostRestarts, clock); !m.open && m.store == n.store && m.log == n.log
  {
    hide Load;
  }
}
