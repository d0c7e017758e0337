/**
 What the simulated Node can be made to do: the whole script to its verified success, and, once
 an append has failed, a load that takes back what was served.
 */
module SimulationProgress {
  import opened Options
  import opened Texts
  import opened JsonText
  import opened Digests
  import opened RunContract
  import opened RunDepth
  import opened SimulationNode
  import opened SimulationRecords
  import opened SimulationStore
  import opened SimulationSafety
  import opened SimulationRuns
  import opened SimulationFiles

  function FireLast(h: Hash, site: Site, n: Node, clock: Clock): Node {
    Next(h, site, n, TimerFires(if n.timers == [] then 0 else |n.timers| - 1, false), clock)
  }

  lemma {:induction false} NextFires(h: Hash, site: Site, n: Node, k: nat, clock: Clock, interrupted: bool)
    requires k < |n.timers|
    ensures Next(h, site, n, TimerFires(k, interrupted), clock) == Fire(h, n, k, clock, interrupted).(time := clock.d)
  {
    hide Fire;
  }

  lemma {:induction false} KeptInv(h: Hash, site: Site, n: Node, m: Node, time: int)
    requires Keeps(h, site, n, m, time)
    ensures Inv(h, site, m.(time := time)) && Logged(h, m.(time := time)) == Logged(h, m)
  {
    hide InvAt, Advances, Replay, OneOpen;
    SameAtAnyTime(h, site, m, time, time);
  }

  // ---------- the script ----------

  /** The last queued timer is due for the given step of the run. */
  predicate LastDue(n: Node, id: Text, index: nat) {
    QueuedLast(n, id, index) && Due(n, |n.timers| - 1)
  }

  /** A due timer for a step before the last: afterwards the last queued timer is due for the next step. */
  lemma {:induction false} NextStepDue(h: Hash, site: Site, n: Node, k: nat, clock: Clock) returns (m: Node)
    requires SitePlain(site) && Inv(h, site, n) && Ticks(n.time, clock) && Due(n, k) && n.timers[k].index < 2
             && clock.first.Appended?
    ensures Inv(h, site, m) && LastDue(m, n.timers[k].id, n.timers[k].index + 1)
    ensures m.time == clock.d && m.open == n.open && m.torn == (n.torn || n.cut) && !m.cut
    ensures m == Next(h, site, n, TimerFires(k, false), clock)
  {
    assert k < |n.timers|;
    hide *;
    NextFires(h, site, n, k, clock, false);
    EarlyStep(h, site, n, k, clock, false);
    var fired := Fire(h, n, k, clock, false);
    EarlyThen(h, site, n, k, clock, fired);
    m := fired.(time := clock.d);
  }

  lemma {:induction false} EarlyThen(h: Hash, site: Site, n: Node, k: nat, clock: Clock, fired: Node)
    requires k < |n.timers| && EarlyFires(h, site, n, k, clock, fired) && clock.first.Appended?
    ensures var m := fired.(time := clock.d);
            && Inv(h, site, m) && LastDue(m, n.timers[k].id, n.timers[k].index + 1) && m.open == n.open
            && m.torn == (n.torn || n.cut) && !m.cut
  {
    hide Inv, Keeps, LastDue, QueuedLast, Runs;
    KeptInv(h, site, n, fired, clock.d);
    DueAtAnyTime(fired, n.timers[k].id, n.timers[k].index + 1, clock.d);
  }

  lemma DueAtAnyTime(n: Node, id: Text, index: nat, time: int)
    requires QueuedLast(n, id, index) && Runs(n, id)
    ensures LastDue(n.(time := time), id, index)
  {
  }

  /** The last due timer: verified success in memory, and in the log when the last append reached the file. */
  lemma {:induction false} LastStepDone(h: Hash, site: Site, n: Node, k: nat, clock: Clock) returns (m: Node)
    requires Guards(h, site) && ShortHash(h) && SitePlain(site) && Inv(h, site, n) && Ticks(n.time, clock)
    requires Due(n, k) && n.timers[k].index == 2 && clock.first.Appended?
    ensures m == Next(h, site, n, TimerFires(k, false), clock) && Inv(h, site, m) && m.time == clock.d
    ensures Succeeds(m, n.timers[k].id) && m.open == n.open
    ensures m.torn == (n.torn || n.cut || clock.second.Torn?) && m.cut == clock.second.Cut?
    ensures !InFile(clock.second) ==> LoggedRunning(h, m, n.timers[k].id)
  {
    assert k < |n.timers|;
    hide *;
    NextFires(h, site, n, k, clock, false);
    LastStep(h, site, n, k, clock);
    var fired := Fire(h, n, k, clock, false);
    LastThen(h, site, n, k, clock, fired);
    m := fired.(time := clock.d);
  }

  lemma {:induction false} LastThen(h: Hash, site: Site, n: Node, k: nat, clock: Clock, fired: Node)
    requires k < |n.timers| && LastFires(h, site, n, k, clock, fired)
    ensures var m, id := fired.(time := clock.d), n.timers[k].id;
            && Inv(h, site, m) && Succeeds(m, id) && m.open == n.open
            && m.torn == (n.torn || n.cut || clock.second.Torn?) && m.cut == clock.second.Cut?
            && (!InFile(clock.second) ==> LoggedRunning(h, m, id))
  {
    hide Inv, Keeps;
    KeptInv(h, site, n, fired, clock.d);
  }

  /** An approved run whose three timers fire, whatever is queued besides them, ends in verified success. */
  lemma {:induction false} ScriptCompletes(h: Hash, site: Site, n: Node, k: nat, c0: Clock, c1: Clock,
            c2: Clock) returns (m: Node)
    requires Guards(h, site) && ShortHash(h) && SitePlain(site) && Inv(h, site, n) && Due(n, k)
             && n.timers[k].index == 0
    requires Ticks(n.time, c0) && Ticks(c0.d, c1) && Ticks(c1.d, c2) && c0.first.Appended? && c1.first.Appended?
             && c2.first.Appended?
    ensures m == FireLast(h, site, FireLast(h, site, Next(h, site, n, TimerFires(k, false), c0), c1), c2)
    ensures Succeeds(m, n.timers[k].id) && Inv(h, site, m) && m.time == c2.d && m.open == n.open
    ensures m.torn == (n.torn || n.cut || c2.second.Torn?) && m.cut == c2.second.Cut?
    ensures !InFile(c2.second) ==> LoggedRunning(h, m, n.timers[k].id)
  {
    hide Inv, Next, Guards, ShortHash, Ticks;
    var a := NextStepDue(h, site, n, k, c0);
    var b := NextStepDue(h, site, a, |a.timers| - 1, c1);
    m := LastStepDone(h, site, b, |b.timers| - 1, c2);
  }

  lemma ClockOrder(c0: Clock, c1: Clock)
    requires Ticks(c0.d, c1)
    ensures c1.a <= c1.b
  {
  }

  lemma {:induction false} Prepares(h: Hash, site: Site, n: Node, id: Text, inputs: Json, route: Text, approval: Text,
            clock: Clock)
    returns (m: Node)
    requires ShortHash(h) && SitePlain(site) && Inv(h, site, n) && n.open && !AnyOpen(n.store.runs)
             && InFile(clock.first)
    requires Sensible(n, DoPrepare(id, inputs, route, approval)) && JsonObject(inputs) && Ticks(n.time, clock)
    ensures m == Next(h, site, n, DoPrepare(id, inputs, route, approval), clock) && Inv(h, site, m) && m.time == clock.d
    ensures Awaits(m, id, Approval(approval, clock.a + 60000, None), route) && m.open && id !in m.unlogged
    ensures FileEnds(n, m, clock.first)
    ensures OnlyChanges(h, n, m, id)
  {
    hide Inv, ShortHash, Ticks, JsonObject, Prepare, Trip, Plain, Keeps, Replay, AnyOpen;
    PrepareKeeps(h, site, n, id, inputs, route, approval, clock);
    var p := Prepare(h, site, n, id, inputs, route, approval, clock).node;
    KeptInv(h, site, n, p, clock.d);
    m := Next(h, site, n, DoPrepare(id, inputs, route, approval), clock);
    assert m == p.(time := clock.d);
    OnlyAtAnyTime(h, n, p, id, clock.d);
  }

  lemma OnlyAtAnyTime(h: Hash, n: Node, m: Node, id: Text, time: int)
    requires OnlyChanges(h, n, m, id)
    ensures OnlyChanges(h, n, m.(time := time), id)
  {
    hide Replay;
  }

  /** Preparing and then approving in time leaves the run's first timer due. */
  lemma {:induction false} PreparedAndApproved(h: Hash, site: Site, n: Node, id: Text, inputs: Json, route: Text,
            approval: Text, c0: Clock, c1: Clock)
    returns (runDigest: Text, approved: Node)
    requires ShortHash(h) && SitePlain(site) && Inv(h, site, n) && n.open && !AnyOpen(n.store.runs)
    requires Sensible(n, DoPrepare(id, inputs, route, approval)) && JsonObject(inputs)
    requires Ticks(n.time, c0) && Ticks(c0.d, c1) && c1.b < c0.a + 60000 && c0.first.Appended? && c1.first.Appended?
    ensures approved == Next(h, site, Next(h, site, n, DoPrepare(id, inputs, route, approval), c0),
                DoApprove(id, runDigest, approval, true, Some(route)), c1)
    ensures Inv(h, site, approved) && approved.time == c1.d && FirstStepDue(approved, id)
    ensures approved.open && id !in approved.unlogged && Runs(approved, id)
    ensures approved.torn == (n.torn || n.cut) && !approved.cut
  {
    hide Inv, ShortHash, Ticks, JsonObject, Approve, Trip, Plain, Keeps, Act;
    var prepared := Prepares(h, site, n, id, inputs, route, approval, c0);
    hide Sensible;
    runDigest := Find(prepared.store.runs, id).value.runDigest;
    ClockOrder(c0, c1);
    ApproveKeeps(h, site, prepared, id, runDigest, approval, true, Some(route), c1);
    var q := Approve(h, prepared, id, runDigest, approval, true, Some(route), c1).node;
    KeptInv(h, site, prepared, q, c1.d);
    approved := Next(h, site, prepared, DoApprove(id, runDigest, approval, true, Some(route)), c1);
    ActApproves(h, site, prepared, id, runDigest, approval, route, c1);
  }

  lemma ActApproves(h: Hash, site: Site, n: Node, id: Text, runDigest: Text, approval: Text, route: Text,
            clock: Clock)
    ensures Next(h, site, n, DoApprove(id, runDigest, approval, true, Some(route)), clock)
            == Or(n, Approve(h, n, id, runDigest, approval, true, Some(route), clock)).(time := clock.d)
  {
    hide Approve;
  }

  /**
   From any open state with no open run, preparing, approving in time and firing the timers leads
   to verified success; the log still shows the run active when the last append did not reach it.
   */
  lemma {:induction false} WholeScriptRuns(h: Hash, site: Site, n: Node, id: Text, inputs: Json, route: Text,
            approval: Text, c0: Clock, c1: Clock, c2: Clock, c3: Clock, c4: Clock)
    returns (runDigest: Text, m: Node)
    requires Guards(h, site) && ShortHash(h) && SitePlain(site) && Inv(h, site, n) && n.open && !AnyOpen(n.store.runs)
    requires Sensible(n, DoPrepare(id, inputs, route, approval)) && JsonObject(inputs)
    requires Ticks(n.time, c0) && Ticks(c0.d, c1) && Ticks(c1.d, c2) && Ticks(c2.d, c3) && Ticks(c3.d, c4)
    requires c1.b < c0.a + 60000 && c0.first.Appended? && c1.first.Appended?
    requires c2.first.Appended? && c3.first.Appended? && c4.first.Appended?
    ensures var prepared := Next(h, site, n, DoPrepare(id, inputs, route, approval), c0);
            var approved := Next(h, site, prepared, DoApprove(id, runDigest, approval, true, Some(route)), c1);
            m == FireLast(h, site, FireLast(h, site, FireLast(h, site, approved, c2), c3), c4)
    ensures Succeeds(m, id) && Inv(h, site, m) && m.time == c4.d && m.open
    ensures m.torn == (n.torn || n.cut || c4.second.Torn?) && m.cut == c4.second.Cut?
    ensures !InFile(c4.second) ==> LoggedRunning(h, m, id)
  {
    hide Inv, Next, Guards, ShortHash, Ticks, JsonObject, Trip, Plain, Sensible, AnyOpen;
    var approved;
    runDigest, approved := PreparedAndApproved(h, site, n, id, inputs, route, approval, c0, c1);
    m := ScriptCompletes(h, site, approved, |approved.timers| - 1, c2, c3, c4);
  }

  // ---------- what a failed append leads to ----------

  ghost predicate EndsUnknown(n: Node, id: Text) {
    Find(n.store.runs, id).Some? && Find(n.store.runs, id).value.phase.OutcomeUnknown?
  }

  /** A restart makes an unknown outcome of a run the log shows active, whatever was served before. */
  lemma {:induction false} RestartMakesUnknown(h: Hash, site: Site, n: Node, id: Text, clock: Clock) returns (m: Node)
    requires SitePlain(site) && Inv(h, site, n) && Ticks(n.time, clock) && !n.torn && AllAppended(clock.marks)
             && LoggedRunning(h, n, id)
    ensures m == Next(h, site, n, HostRestarts, clock) && m.open && EndsUnknown(m, id)
  {
    hide Inv, InvAt, Ticks, Next, Advances, Replay, OneOpen, Active, Newer, Adds;
    LoadsKeep(h, site, n, HostRestarts, clock);
    m := Next(h, site, n, HostRestarts, clock);
    var logged := Logged(h, n).runs;
    assert LoadedAs(logged, m.store.runs, logged, id);
  }

  /**
   A verified success that was served is taken back: the append of its last record is lost, the
   host restarts, and the run is an unknown outcome.
   */
  lemma {:induction false} SuccessTakenBack(h: Hash, site: Site, n: Node, id: Text, inputs: Json, route: Text,
            approval: Text, c0: Clock, c1: Clock, c2: Clock, c3: Clock, c4: Clock, c5: Clock)
    returns (runDigest: Text, served: Node, reloaded: Node)
    requires Guards(h, site) && ShortHash(h) && SitePlain(site) && Inv(h, site, n) && n.open && Intact(n)
             && !AnyOpen(n.store.runs)
    requires Sensible(n, DoPrepare(id, inputs, route, approval)) && JsonObject(inputs)
    requires Ticks(n.time, c0) && Ticks(c0.d, c1) && Ticks(c1.d, c2) && Ticks(c2.d, c3) && Ticks(c3.d, c4)
             && Ticks(c4.d, c5)
    requires c1.b < c0.a + 60000 && c0.first.Appended? && c1.first.Appended?
    requires c2.first.Appended? && c3.first.Appended? && c4.first.Appended? && c4.second.Lost? && AllAppended(c5.marks)
    ensures var prepared := Next(h, site, n, DoPrepare(id, inputs, route, approval), c0);
            var approved := Next(h, site, prepared, DoApprove(id, runDigest, approval, true, Some(route)), c1);
            served == FireLast(h, site, FireLast(h, site, FireLast(h, site, approved, c2), c3), c4)
    ensures reloaded == Next(h, site, served, HostRestarts, c5)
    ensures served.open && Succeeds(served, id) && reloaded.open && EndsUnknown(reloaded, id)
  {
    hide Inv, Next, Guards, ShortHash, Ticks, JsonObject, Sensible, AnyOpen, Succeeds, LoggedRunning, EndsUnknown,
         AllAppended;
    runDigest, served := WholeScriptRuns(h, site, n, id, inputs, route, approval, c0, c1, c2, c3, c4);
    reloaded := RestartMakesUnknown(h, site, served, id, c5);
  }

  lemma {:induction false} StopOf(h: Hash, site: Site, n: Node, id: Text, clock: Clock) returns (m: Node)
    requires SitePlain(site) && Inv(h, site, n) && Ticks(n.time, clock) && n.open
    requires Find(n.store.runs, id).Some? && !Terminal(Find(n.store.runs, id).value.phase)
    ensures m == Next(h, site, n, DoStop(id), clock) && Inv(h, site, m) && m.time == clock.d && m.open
    ensures Cancels(m, id) && RecordedIf(h, n, m, id, InFile(clock.first)) && OnlyChanges(h, n, m, id)
    ensures FileEnds(n, m, clock.first)
  {
    hide Inv, Ticks, Stop, Keeps, Replay;
    StopKeeps(h, site, n, id, clock);
    var q := Stop(h, n, id, clock).node;
    KeptInv(h, site, n, q, clock.d);
    m := Next(h, site, n, DoStop(id), clock);
    assert m == q.(time := clock.d);
    OnlyAtAnyTime(h, n, q, id, clock.d);
  }

  /** A confirmed Stop that was served is taken back in the same way. */
  lemma {:induction false} StopTakenBack(h: Hash, site: Site, n: Node, id: Text, inputs: Json, route: Text,
            approval: Text, c0: Clock, c1: Clock, c2: Clock, c3: Clock)
    returns (runDigest: Text, served: Node, reloaded: Node)
    requires ShortHash(h) && SitePlain(site) && Inv(h, site, n) && n.open && Intact(n) && !AnyOpen(n.store.runs)
    requires Sensible(n, DoPrepare(id, inputs, route, approval)) && JsonObject(inputs)
    requires Ticks(n.time, c0) && Ticks(c0.d, c1) && Ticks(c1.d, c2) && Ticks(c2.d, c3)
    requires c1.b < c0.a + 60000 && c0.first.Appended? && c1.first.Appended? && c2.first.Lost? && AllAppended(c3.marks)
    ensures var prepared := Next(h, site, n, DoPrepare(id, inputs, route, approval), c0);
            var approved := Next(h, site, prepared, DoApprove(id, runDigest, approval, true, Some(route)), c1);
            served == Next(h, site, approved, DoStop(id), c2)
    ensures reloaded == Next(h, site, served, HostRestarts, c3)
    ensures served.open && Cancels(served, id) && reloaded.open && EndsUnknown(reloaded, id)
  {
    hide Inv, Next, ShortHash, Ticks, JsonObject, Sensible, AnyOpen, Cancels, EndsUnknown, AllAppended;
    var approved;
    runDigest, approved := PreparedAndApproved(h, site, n, id, inputs, route, approval, c0, c1);
    served := StopOf(h, site, approved, id, c2);
    assert LoggedRunning(h, served, id) by { NotMissing(h, site, approved, id); }
    reloaded := RestartMakesUnknown(h, site, served, id, c3);
  }

  lemma {:induction false} NotMissing(h: Hash, site: Site, n: Node, id: Text)
    requires Inv(h, site, n) && id !in n.unlogged
    ensures Find(Logged(h, n).runs, id) == Find(n.store.runs, id)
  {
    hide InvAt, Replay, Find;
    InvNow(h, site, n);
    InvAtSound(h, site, n, n.time);
    LoggedIffNotMissing(h, site, n, n.time, id);
  }

  ghost predicate Waits(n: Node, id: Text) {
    Find(n.store.runs, id).Some? && Find(n.store.runs, id).value.phase.WaitingForApproval?
  }

  lemma {:induction false} StillNoneOpen(h: Hash, site: Site, n: Node, p: Node, q: Node, id: Text)
    requires !AnyOpen(n.store.runs) && OnlyChanges(h, n, p, id) && OnlyChanges(h, p, q, id) && Closed(q, id)
             && Inv(h, site, q)
    ensures !AnyOpen(q.store.runs)
  {
    hide Inv, Terminal, Replay;
    assert Distinct(q.store.runs) by { InvSettled(h, site, q); SettledDistinct(h, site, q, q.time); }
    forall i | 0 <= i < |q.store.runs| ensures Terminal(q.store.runs[i].phase) {
      var x := q.store.runs[i];
      FindIs(q.store.runs, x);
      if x.runId != id { assert Find(n.store.runs, x.runId) == Some(x); }
    }
  }

  lemma {:induction false} RestartKeepsWaiting(h: Hash, site: Site, n: Node, id: Text, clock: Clock) returns (m: Node)
    requires SitePlain(site) && Inv(h, site, n) && Ticks(n.time, clock) && !n.torn && AllAppended(clock.marks)
    requires Find(Logged(h, n).runs, id).Some? && Find(Logged(h, n).runs, id).value.phase.WaitingForApproval?
    ensures m == Next(h, site, n, HostRestarts, clock) && m.open && Waits(m, id)
  {
    hide Inv, InvAt, Ticks, Next, Advances, Replay, OneOpen, Active, ClosedAs;
    LoadsKeep(h, site, n, HostRestarts, clock);
    m := Next(h, site, n, HostRestarts, clock);
    var logged := Logged(h, n).runs;
    assert LoadedAs(logged, m.store.runs, logged, id);
  }

  /** With a Stop whose append was lost, two runs are open after a restart: the stopped one waits for approval again. */
  lemma {:induction false} TwoMayBeOpen(h: Hash, site: Site, n: Node, a: Step, b: Step, c0: Clock, c1: Clock,
            c2: Clock, c3: Clock)
    returns (stopped: Node, m: Node)
    requires ShortHash(h) && SitePlain(site) && Inv(h, site, n) && n.open && Intact(n) && !AnyOpen(n.store.runs)
    requires a.DoPrepare? && b.DoPrepare? && a.id != b.id && Sensible(n, a) && Sensible(n, b) && JsonObject(a.inputs)
             && JsonObject(b.inputs)
    requires Ticks(n.time, c0) && Ticks(c0.d, c1) && Ticks(c1.d, c2) && Ticks(c2.d, c3)
    requires c0.first.Appended? && c1.first.Lost? && c2.first.Appended? && AllAppended(c3.marks)
    ensures stopped == Next(h, site, Next(h, site, n, a, c0), DoStop(a.id), c1) && Cancels(stopped, a.id)
    ensures Find(stopped.store.runs, b.id) == Find(n.store.runs, b.id)
    ensures m == Next(h, site, Next(h, site, stopped, b, c2), HostRestarts, c3)
    ensures m.open && Waits(m, a.id) && Waits(m, b.id)
  {
    hide Inv, Next, ShortHash, Ticks, JsonObject, Plain, Trip, AllAppended, Waits, AnyOpen, Replay;
    var p := Prepares(h, site, n, a.id, a.inputs, a.route, a.approval, c0);
    NotMissing(h, site, p, a.id);
    stopped := StopOf(h, site, p, a.id, c1);
    StillNoneOpen(h, site, n, p, stopped, a.id);
    assert Find(stopped.store.runs, b.id) == Find(n.store.runs, b.id);
    var q := Prepares(h, site, stopped, b.id, b.inputs, b.route, b.approval, c2);
    NotMissing(h, site, q, b.id);
    m := RestartKeepsWaiting(h, site, q, a.id, c3);
    m := RestartKeepsWaiting(h, site, q, b.id, c3);
  }

  /**
   A preparation whose append is cut before its newline is there after a restart. A Stop whose append
   succeeds then spoils the file: the session is served with the Stop, and never loads again.
   */
  lemma {:induction false} SuccessSpoilsFile(h: Hash, site: Site, n: Node, a: Step, c0: Clock, c1: Clock, c2: Clock)
    returns (prepared: Node, reloaded: Node, stopped: Node)
    requires ShortHash(h) && SitePlain(site) && Inv(h, site, n) && n.open && Intact(n) && !AnyOpen(n.store.runs)
    requires a.DoPrepare? && Sensible(n, a) && JsonObject(a.inputs)
    requires Ticks(n.time, c0) && Ticks(c0.d, c1) && Ticks(c1.d, c2)
    requires c0.first.Cut? && c1.first.Appended? && AllAppended(c1.marks)
    ensures prepared == Next(h, site, n, a, c0) && reloaded == Next(h, site, prepared, HostRestarts, c1)
    ensures reloaded.open && Waits(reloaded, a.id)
    ensures stopped == Next(h, site, prepared, DoStop(a.id), c1) && stopped.open && Cancels(stopped, a.id)
    ensures stopped.torn && !Next(h, site, stopped, HostRestarts, c2).open
  {
    hide Inv, Next, ShortHash, Ticks, JsonObject, Plain, Trip, AllAppended, Waits, AnyOpen, Replay;
    prepared := Prepares(h, site, n, a.id, a.inputs, a.route, a.approval, c0);
    NotMissing(h, site, prepared, a.id);
    reloaded := RestartKeepsWaiting(h, site, prepared, a.id, c1);
    stopped := StopOf(h, site, prepared, a.id, c1);
    TornRestart(h, site, stopped, c2);
  }

  /** A process that ends between the third step's two writes leaves an unknown outcome after the restart. */
  lemma {:induction false} InterruptedEndsUnknown(h: Hash, site: Site, n: Node, k: nat, c0: Clock,
            c1: Clock) returns (m: Node)
    requires SitePlain(site) && Inv(h, site, n) && Intact(n) && Due(n, k) && n.timers[k].index == 2
    requires Ticks(n.time, c0) && Ticks(c0.d, c1) && c0.first.Appended? && AllAppended(c1.marks)
    ensures m == Next(h, site, Next(h, site, n, TimerFires(k, true), c0), HostRestarts, c1)
    ensures m.open && EndsUnknown(m, n.timers[k].id)
  {
    hide *;
    FireInterrupted(h, site, n, k, c0);
    m := RestartMakesUnknown(h, site, Next(h, site, n, TimerFires(k, true), c0), n.timers[k].id, c1);
  }

  lemma {:induction false} FireInterrupted(h: Hash, site: Site, n: Node, k: nat, clock: Clock)
    requires SitePlain(site) && Inv(h, site, n) && Intact(n) && Due(n, k) && n.timers[k].index == 2
    requires Ticks(n.time, clock) && clock.first.Appended?
    ensures k < |n.timers|
    ensures var m := Next(h, site, n, TimerFires(k, true), clock);
            Inv(h, site, m) && m.time == clock.d && !m.torn && LoggedRunning(h, m, n.timers[k].id)
  {
    NextFires(h, site, n, k, clock, true);
    hide Inv, Fire, Next, Ticks, Keeps, Due, Replay, Find, Unqueue, Events;
    LastInterrupted(h, site, n, k, clock, true);
    KeptInv(h, site, n, Fire(h, n, k, clock, true), clock.d);
  }
}
