/**
 What every reachable state of the simulated Node satisfies, under any order of requests,
 timers, failing appends, interruptions and restarts, with a clock that never goes back.
 */
module SimulationSafety {
  import opened Options
  import opened Texts
  import opened JsonText
  import opened Digests
  import opened RunContract
  import opened RunDepth
  import opened SimulationNode
  import opened SimulationRecords
  import opened SimulationLogs
  import opened SimulationStore

  // ---------- the invariant ----------

  ghost predicate OneOpen(rs: seq<Run>) {
    forall a, b :: a in rs && b in rs && !Terminal(a.phase) && !Terminal(b.phase) ==> a == b
  }

  /** Where the scripted table stands when a timer of the given step is due. */
  function Expected(index: nat, inputs: Json): Virtual {
    if index == 0 then Virtual(Source(inputs), Source(inputs), false)
    else if index == 1 then Virtual(T("gripper"), Source(inputs), true)
    else Virtual(T("gripper"), Destination(inputs), true)
  }

  /** A queued timer belongs to an approved run, and while that run is active it is due for the run's next step. */
  ghost predicate TimerFits(rs: seq<Run>, t: Timer) {
    && t.index <= 2 && Find(rs, t.id).Some?
    && !Find(rs, t.id).value.phase.WaitingForApproval?
    && (Find(rs, t.id).value.phase.Running? ==>
        |Find(rs, t.id).value.events| == t.index + 2 && t.virtual == Expected(t.index, Find(rs, t.id).value.inputs))
  }

  ghost predicate TimersFit(rs: seq<Run>, timers: seq<Timer>) {
    forall i :: 0 <= i < |timers| ==> TimerFits(rs, timers[i])
  }

  ghost predicate OneTimerEach(timers: seq<Timer>) {
    forall i, j :: 0 <= i < j < |timers| ==> timers[i].id != timers[j].id
  }

  ghost predicate NoTimerOf(timers: seq<Timer>, id: Text) {
    forall i :: 0 <= i < |timers| ==> timers[i].id != id
  }

  /** What no failing append can break: memory, log and the queued timers, which fit both. */
  ghost predicate Settled(h: Hash, site: Site, n: Node, time: int) {
    Sound(h, site, n, time) && TimersFit(n.store.runs, n.timers) && TimersFit(Logged(h, n).runs, n.timers)
        && OneTimerEach(n.timers)
  }

  /** The first event the log lacks is not one a load would add. */
  predicate Diverges(q: Run, r: Run) {
    |r.events| < |q.events| && q.events[|r.events|].kind != RestartedKind()
  }

  ghost predicate NoneRepeated(logged: seq<Run>, held: seq<Run>, unlogged: set<Text>) {
    forall id :: id in unlogged && Find(logged, id).Some? && Find(held, id).Some? ==>
      Diverges(Find(held, id).value, Find(logged, id).value)
  }

  ghost predicate InvAt(h: Hash, site: Site, n: Node, time: int) {
    Settled(h, site, n, time) && (n.open ==> NoneRepeated(Logged(h, n).runs, n.store.runs, n.unlogged))
  }

  ghost predicate Inv(h: Hash, site: Site, n: Node) { InvAt(h, site, n, n.time) }

  // ---------- how stored runs move ----------

  predicate Continues(q: Run, r: Run) {
    q.runId == r.runId && Later(q, r) && (Terminal(r.phase) ==> q == r)
  }

  ghost predicate Succeeded(rs: seq<Run>, r: Run) {
    exists q :: q in rs && Continues(q, r)
  }

  /** Every run is still there: unchanged once terminal, and otherwise itself or a newer record that extends it. */
  ghost predicate Advances(rs: seq<Run>, ss: seq<Run>) {
    forall r :: r in rs ==> Succeeded(ss, r)
  }

  lemma AdvancesSelf(rs: seq<Run>)
    ensures Advances(rs, rs)
  {
    forall r | r in rs ensures Succeeded(rs, r) { assert Continues(r, r); }
  }

  lemma AdvancesTransitive(a: seq<Run>, b: seq<Run>, c: seq<Run>)
    requires Advances(a, b) && Advances(b, c)
    ensures Advances(a, c)
  {
    forall r | r in a ensures Succeeded(c, r) {
      var q :| q in b && Continues(q, r);
      assert Succeeded(c, q);
      var p :| p in c && Continues(p, q);
      LaterTransitive(p, q, r);
      assert Continues(p, r);
    }
  }

  /** A new run, or a newer record of a run that was open. */
  lemma {:induction false} PutAdvances(rs: seq<Run>, e: Run)
    requires Distinct(rs) && (Find(rs, e.runId).Some? ==> Newer(e, Find(rs, e.runId).value))
    ensures Advances(rs, Put(rs, e))
  {
    hide Put, Terminal;
    PutHolds(rs, e);
    forall x | x in rs ensures Succeeded(Put(rs, e), x) {
      FindIs(rs, x);
      if x.runId == e.runId { assert Continues(e, x) by { NewerContinues(e, x); } } else { assert Continues(x, x); }
    }
  }

  lemma NewerContinues(q: Run, r: Run)
    requires Newer(q, r)
    ensures Continues(q, r)
  {
  }

  /** Memory is never behind the log. */
  lemma {:induction false} LogBehind(h: Hash, site: Site, n: Node, time: int)
    requires Sound(h, site, n, time)
    ensures Advances(Logged(h, n).runs, n.store.runs)
  {
    hide Replay, Aligned, Prepared, Good, LinesPass, Terminal, Matches;
    var logged, held := Logged(h, n).runs, n.store.runs;
    forall r | r in logged ensures Succeeded(held, r) {
      FindIs(logged, r);
      assert Lags(logged, held, n.unlogged, r.runId);
      var q := Find(held, r.runId).value;
      if r.runId in n.unlogged { NewerContinues(q, r); } else { assert Continues(q, r); }
    }
  }

  lemma {:induction false} PutOneOpen(rs: seq<Run>, e: Run)
    requires Distinct(rs)
    requires match Find(rs, e.runId) case Some(r) => !Terminal(r.phase) case None => !AnyOpen(rs)
    ensures OneOpen(rs) ==> OneOpen(Put(rs, e))
  {
    hide Put, Terminal;
    PutHolds(rs, e);
  }

  // ---------- one write ----------

  /** e is r with one more event. */
  predicate Adds(e: Run, r: Run, kind: Text) {
    |e.events| == |r.events| + 1 && e.events[..|r.events|] == r.events && e.events[|r.events|].kind == kind
  }

  /** m is n after e was written, its line in the file or not. */
  ghost predicate Replaced(h: Hash, n: Node, m: Node, e: Run, kept: bool) {
    && m.store.runs == Put(n.store.runs, e) && m.timers == n.timers && m.open == n.open
    && Logged(h, m).runs == (if kept then Put(Logged(h, n).runs, e) else Logged(h, n).runs)
    && m.unlogged == (if kept then n.unlogged - {e.runId} else n.unlogged + {e.runId})
  }

  /** Nothing but the one run changed, in memory or in the log. */
  ghost predicate OnlyChanges(h: Hash, n: Node, m: Node, id: Text) {
    forall other :: other != id ==>
      Find(m.store.runs, other) == Find(n.store.runs, other)
          && Find(Logged(h, m).runs, other) == Find(Logged(h, n).runs, other)
  }

  lemma {:induction false} ReplacedOnly(h: Hash, n: Node, m: Node, e: Run, kept: bool)
    requires Replaced(h, n, m, e, kept)
    ensures OnlyChanges(h, n, m, e.runId)
  {
    hide Put, Find, Replay;
    forall other | other != e.runId
      ensures Find(m.store.runs, other) == Find(n.store.runs, other)
              && Find(Logged(h, m).runs, other) == Find(Logged(h, n).runs, other)
    {
      PutFinds(n.store.runs, e, other);
      PutFinds(Logged(h, n).runs, e, other);
    }
  }

  ghost predicate Harmless(h: Hash, site: Site, phase: Phase, evidence: Option<Json>) {
    evidence.Some? ==> phase.VerifiedSuccess? && Digest(h, evidence.value) != Digest(h, Preparation(site))
  }

  /**
   Writing the next record of an open run: never refused, in memory at once, and in the log when its
   line reached the file.
   */
  lemma {:induction false} GrowRun(h: Hash, site: Site, n: Node, r: Run, x: Run, phase: Phase, kind: Text, u: int,
            v: int, time: int,
                                   evidence: Option<Json>, fate: Append)
    returns (e: Run, m: Node)
    requires Sound(h, site, n, time) && SitePlain(site) && Harmless(h, site, phase, evidence)
    requires r in n.store.runs && !Terminal(r.phase) && MayGrow(h, r, x, phase, kind, u, v, time)
    ensures Evolve(h, x, phase, kind, u, v) == Some(e) && WriteEvolved(h, n, Some(e), evidence, fate) == Wrote(fate, m)
    ensures Sound(h, site, m, v) && Replaced(h, n, m, e, InFile(fate)) && m.time == n.time
            && FileEnds(n, m, fate)
    ensures Find(n.store.runs, r.runId) == Some(r) && Find(m.store.runs, r.runId) == Some(e)
    ensures e.runId == r.runId && e.phase == phase && e.inputs == r.inputs && Newer(e, r) && Adds(e, r, kind)
  {
    hide *;
    e := GrownRecord(h, r, x, phase, kind, u, v, time);
    GrowsInPlace(h, site, n, r, e, evidence, time);
    PreparationPrints(h, site);
    m := WriteSound(h, site, n, e, None, evidence, fate, time, v);
    PutFinds(n.store.runs, e, e.runId);
    WroteIs(h, n, m, e, evidence, fate);
  }

  lemma WroteIs(h: Hash, n: Node, m: Node, e: Run, evidence: Option<Json>, fate: Append)
    requires m.store.runs == Put(n.store.runs, e) && m.timers == n.timers && m.open == n.open
    requires Logged(h, m).runs == (if InFile(fate) then Put(Logged(h, n).runs, e) else Logged(h, n).runs)
    requires m.unlogged == (if InFile(fate) then n.unlogged - {e.runId} else n.unlogged + {e.runId})
    ensures Replaced(h, n, m, e, InFile(fate))
    ensures WriteEvolved(h, n, Some(e), evidence, fate) == Write(h, n, e, None, evidence, fate)
  {
    hide Put, Replay, Write;
  }

  /** The record an operation makes of an open run. */
  lemma {:induction false} GrownRecord(h: Hash, r: Run, x: Run, phase: Phase, kind: Text, u: int, v: int,
            time: int) returns (e: Run)
    requires MayGrow(h, r, x, phase, kind, u, v, time) && !Terminal(r.phase)
    ensures Evolve(h, x, phase, kind, u, v) == Some(e) && Good(h, e, v) && time <= v
    ensures e.runId == r.runId && e.phase == phase && e.inputs == r.inputs && Newer(e, r) && Adds(e, r, kind)
  {
    Grows(h, r, x, phase, kind, u, v, time);
    hide Good, MayGrow, Evolve, Later, Grown, Terminal;
    e := Evolve(h, x, phase, kind, u, v).value;
    GrownIs(x, phase, kind, u, v);
    SameBasis(h, r, x, phase, kind, u, v, time);
    StampsInOrder(h, r, x, phase, kind, u, v, time);
  }

  lemma {:induction false} StampsInOrder(h: Hash, r: Run, x: Run, phase: Phase, kind: Text, u: int, v: int, time: int)
    requires MayGrow(h, r, x, phase, kind, u, v, time)
    ensures time <= v
  {
  }

  lemma {:induction false} GrowsInPlace(h: Hash, site: Site, n: Node, r: Run, e: Run, evidence: Option<Json>, time: int)
    requires Sound(h, site, n, time) && r in n.store.runs && e.runId == r.runId && Newer(e, r)
    requires Harmless(h, site, e.phase, evidence)
    ensures Find(n.store.runs, r.runId) == Some(r) && MayWrite(h, site, n.store, e, None, evidence)
  {
    SoundDistinct(h, site, n, time);
    hide Sound, Newer, Digest, Preparation;
    FindIs(n.store.runs, r);
  }

  lemma {:induction false} SameBasis(h: Hash, r: Run, x: Run, phase: Phase, kind: Text, u: int, v: int, time: int)
    requires MayGrow(h, r, x, phase, kind, u, v, time)
    ensures x.runId == r.runId && x.inputs == r.inputs && x.events == r.events && x.revision == r.revision
  {
  }

  lemma GrownIs(x: Run, phase: Phase, kind: Text, u: int, v: int)
    ensures var g := Grown(x, phase, kind, u, v);
            && g.runId == x.runId && g.phase == phase && g.inputs == x.inputs && g.revision == x.revision + 1
            && |g.events| == |x.events| + 1 && g.events[..|x.events|] == x.events && g.events[|x.events|].kind == kind
  {
  }

  // ---------- what one write keeps ----------

  ghost predicate Ticks(time: int, clock: Clock) {
    && time <= clock.a <= clock.b <= clock.c <= clock.d && ValidStamp(clock.a) && ValidStamp(clock.d + 60000)
    && MarksFit(clock.marks, clock.a, clock.d)
  }

  /** The readings of a load follow one another. */
  ghost predicate MarksFit(marks: seq<Mark>, from: int, last: int) {
    from <= last && (marks != [] ==> from <= marks[0].u <= marks[0].v && MarksFit(marks[1..], marks[0].v, last))
  }

  /**
   What a step other than a load leaves: the invariant, and every run, in memory and in the log,
   itself or advanced.
   */
  ghost predicate Keeps(h: Hash, site: Site, n: Node, m: Node, time: int) {
    && InvAt(h, site, m, time) && Advances(n.store.runs, m.store.runs) && Advances(Logged(h, n).runs, Logged(h, m).runs)
    && (OneOpen(n.store.runs) ==> OneOpen(m.store.runs))
  }

  lemma KeepsSame(h: Hash, site: Site, n: Node, time: int, later: int)
    requires InvAt(h, site, n, time) && time <= later
    ensures Keeps(h, site, n, n, later)
  {
    hide Sound, Replay, Advances, OneOpen;
    AdvancesSelf(n.store.runs);
    AdvancesSelf(Logged(h, n).runs);
    SoundLater(h, site, n, time, later);
  }

  lemma KeepsTransitive(h: Hash, site: Site, n: Node, m: Node, q: Node, time: int, later: int)
    requires Keeps(h, site, n, m, time) && Keeps(h, site, m, q, later)
    ensures Keeps(h, site, n, q, later)
  {
    hide InvAt, Replay, Advances, OneOpen;
    AdvancesTransitive(n.store.runs, m.store.runs, q.store.runs);
    AdvancesTransitive(Logged(h, n).runs, Logged(h, m).runs, Logged(h, q).runs);
  }

  lemma {:induction false} KeepsLater(h: Hash, site: Site, n: Node, m: Node, time: int, later: int)
    requires Keeps(h, site, n, m, time) && time <= later
    ensures Keeps(h, site, n, m, later)
  {
    hide Sound, Replay, Advances, OneOpen;
    SoundLater(h, site, m, time, later);
  }

  /** A timer still fits when its run did not change, or left the active phases. */
  lemma {:induction false} TimersAfter(rs: seq<Run>, e: Run, timers: seq<Timer>)
    requires TimersFit(rs, timers)
    requires NoTimerOf(timers, e.runId) || (!e.phase.WaitingForApproval? && !e.phase.Running?)
    ensures TimersFit(Put(rs, e), timers)
  {
    hide Put, Expected;
    forall i | 0 <= i < |timers| ensures TimerFits(Put(rs, e), timers[i]) {
      assert TimerFits(rs, timers[i]);
      PutFinds(rs, e, timers[i].id);
    }
  }

  ghost predicate MayFollow(rs: seq<Run>, e: Run) {
    match Find(rs, e.runId) case Some(r) => Newer(e, r) case None => !AnyOpen(rs)
  }

  ghost predicate TimersAllow(timers: seq<Timer>, e: Run) {
    NoTimerOf(timers, e.runId) || (!e.phase.WaitingForApproval? && !e.phase.Running?)
  }

  lemma {:induction false} FollowsLogged(h: Hash, site: Site, n: Node, e: Run, time: int)
    requires Sound(h, site, n, time) && MayFollow(n.store.runs, e) && Find(Logged(h, n).runs, e.runId).Some?
    ensures Newer(e, Find(Logged(h, n).runs, e.runId).value)
  {
    hide Replay, Aligned, Holds, LinesPass, Terminal, AnyOpen, Later;
    var logged := Logged(h, n).runs;
    assert Lags(logged, n.store.runs, n.unlogged, e.runId);
    NewerTransitive(e, Find(n.store.runs, e.runId).value, Find(logged, e.runId).value);
  }

  lemma {:induction false} WroteSettles(h: Hash, site: Site, n: Node, m: Node, e: Run, kept: bool, time: int,
            later: int)
    requires Settled(h, site, n, time) && Sound(h, site, m, later) && Replaced(h, n, m, e, kept)
    requires MayFollow(n.store.runs, e) && TimersAllow(n.timers, e)
    ensures Settled(h, site, m, later)
    ensures Advances(n.store.runs, m.store.runs) && Advances(Logged(h, n).runs, Logged(h, m).runs)
    ensures OneOpen(n.store.runs) ==> OneOpen(m.store.runs)
  {
    hide Sound, Replay, Put, NoTimerOf, Distinct, OneTimerEach, Advances, OneOpen, Terminal, TimersFit, Find, AnyOpen,
         Later;
    var logged := Logged(h, n).runs;
    if Find(logged, e.runId).Some? { FollowsLogged(h, site, n, e, time); }
    SoundDistinct(h, site, n, time);
    TimersAfter(n.store.runs, e, n.timers);
    TimersAfter(logged, e, n.timers);
    PutAdvances(n.store.runs, e);
    PutOneOpen(n.store.runs, e);
    if kept { PutAdvances(logged, e); } else { AdvancesSelf(logged); }
  }

  lemma {:induction false} SoundDistinct(h: Hash, site: Site, n: Node, time: int)
    requires Sound(h, site, n, time)
    ensures Distinct(n.store.runs) && Distinct(Logged(h, n).runs)
  {
    hide Behind, Aligned, Replay, LinesPass, Prepared, AllGood;
  }

  /** A record that adds an event other than a load's. */
  ghost predicate AddsOther(rs: seq<Run>, e: Run) {
    Find(rs, e.runId).Some? ==> exists kind :: kind != RestartedKind() && Adds(e, Find(rs, e.runId).value, kind)
  }

  lemma {:induction false} WroteUnrepeated(logged: seq<Run>, held: seq<Run>, unlogged: set<Text>, e: Run, kept: bool)
    requires Behind(logged, held, unlogged) && NoneRepeated(logged, held, unlogged) && AddsOther(held, e)
    ensures NoneRepeated(if kept then Put(logged, e) else logged, Put(held, e),
                         if kept then unlogged - {e.runId} else unlogged + {e.runId})
  {
    hide Put, Newer, RestartedKind;
    var more := if kept then Put(logged, e) else logged;
    var less := if kept then unlogged - {e.runId} else unlogged + {e.runId};
    forall id | id in less && Find(more, id).Some? && Find(Put(held, e), id).Some?
      ensures Diverges(Find(Put(held, e), id).value, Find(more, id).value)
    {
      PutFinds(held, e, id);
      PutFinds(logged, e, id);
      assert Lags(logged, held, unlogged, id);
      if id == e.runId { StillDiverges(e, Find(held, id).value, Find(logged, id).value); }
    }
  }

  lemma {:induction false} StillDiverges(e: Run, q: Run, r: Run)
    requires exists kind :: kind != RestartedKind() && Adds(e, q, kind)
    requires q == r || Diverges(q, r)
    ensures Diverges(e, r)
  {
    hide RestartedKind;
    if q != r { assert e.events[|r.events|] == e.events[..|q.events|][|r.events|]; }
  }

  /** A write by any operation keeps the invariant, whatever became of its append. */
  lemma {:induction false} WroteKeeps(h: Hash, site: Site, n: Node, m: Node, e: Run, kept: bool, time: int, later: int)
    requires InvAt(h, site, n, time) && Sound(h, site, m, later) && Replaced(h, n, m, e, kept)
    requires MayFollow(n.store.runs, e) && TimersAllow(n.timers, e) && AddsOther(n.store.runs, e)
    ensures Keeps(h, site, n, m, later)
  {
    hide Advances, OneOpen, MayFollow, TimersAllow, Replay, Put, TimersFit, AddsOther, NoneRepeated, Behind, Holds,
         Aligned, LinesPass;
    WroteSettles(h, site, n, m, e, kept, time, later);
    if n.open { WroteUnrepeated(Logged(h, n).runs, n.store.runs, n.unlogged, e, kept); }
  }

  lemma {:induction false} GrownMayFollow(rs: seq<Run>, r: Run, e: Run, kind: Text)
    requires Find(rs, e.runId) == Some(r) && Newer(e, r) && Adds(e, r, kind) && kind != RestartedKind()
    ensures MayFollow(rs, e) && AddsOther(rs, e)
  {
    hide RestartedKind, Terminal, Later, Adds;
  }

  /** Queueing the next timer of the run that was just written and logged. */
  lemma {:induction false} QueuedKeeps(h: Hash, site: Site, n: Node, m: Node, e: Run, next: Timer, time: int)
    requires Keeps(h, site, n, m, time) && NoTimerOf(m.timers, e.runId)
    requires Find(m.store.runs, e.runId) == Some(e) && Find(Logged(h, m).runs, e.runId) == Some(e)
    requires next.id == e.runId && next.index <= 2 && e.phase.Running?
    requires |e.events| == next.index + 2 && next.virtual == Expected(next.index, e.inputs)
    ensures Keeps(h, site, n, m.(timers := m.timers + [next]), time)
  {
    hide Sound, Replay, Advances, OneOpen, T, NoneRepeated, Expected;
    var q := m.(timers := m.timers + [next]);
    assert SameButTimers(m, q);
    SoundAnyTimers(h, site, m, q, time);
    forall i | 0 <= i < |q.timers| ensures TimerFits(q.store.runs, q.timers[i])
        && TimerFits(Logged(h, q).runs, q.timers[i]) {
      if i < |m.timers| { assert TimerFits(m.store.runs, m.timers[i]) && TimerFits(Logged(h, m).runs, m.timers[i]); }
    }
  }

  predicate SameButTimers(n: Node, m: Node) { m.(timers := n.timers, time := n.time, open := n.open) == n }

  lemma SoundAnyTimers(h: Hash, site: Site, n: Node, m: Node, time: int)
    requires Sound(h, site, n, time) && SameButTimers(n, m)
    ensures Sound(h, site, m, time)
  {
    hide Holds, Replay, Behind, Aligned, LinesPass;
  }

  // ---------- each operation ----------

  /** What Stop leaves. */
  ghost predicate StopLeaves(h: Hash, site: Site, n: Node, w: Written, id: Text, clock: Clock) {
    var r := Find(n.store.runs, id);
    && (w.Refused? <==> !n.open || r.None?)
    && (w.Threw? <==> n.open && r.Some? && !Terminal(r.value.phase) && !clock.first.Appended?)
    && (!w.Refused? ==>
          && Keeps(h, site, n, w.node, clock.d) && Closed(w.node, id) && w.node.open && w.node.time == n.time
          && (Terminal(r.value.phase) ==> w.node == n))
    && (!w.Refused? && !Terminal(r.value.phase) ==>
          && Cancels(w.node, id) && RecordedIf(h, n, w.node, id, InFile(clock.first)) && OnlyChanges(h, n, w.node, id)
          && FileEnds(n, w.node, clock.first))
  }

  /**
   Stop closes any known run that is not terminal, answers for a terminal one, and throws exactly
   when its append does.
   */
  lemma {:induction false} StopKeeps(h: Hash, site: Site, n: Node, id: Text, clock: Clock)
    requires Inv(h, site, n) && SitePlain(site) && Ticks(n.time, clock)
    ensures StopLeaves(h, site, n, Stop(h, n, id, clock), id, clock)
  {
    hide Good, MayGrow, Evolve, Grown, WriteEvolved, Keeps, T, Put, Sound, TimersFit, Replay, Advances, Succeeded,
         OneOpen, Later, StoppedKind;
    var found := Find(n.store.runs, id);
    KeepsSame(h, site, n, n.time, clock.d);
    if n.open && found.Some? && !Terminal(found.value.phase) {
      var r, x, kind := found.value, Stopped(found.value), StoppedKind();
      SoundGood(h, site, n, r, n.time);
      StopGrows(h, r, clock.a, clock.b, n.time);
      var e, m := GrowRun(h, site, n, r, x, Cancelled, kind, clock.a, clock.b, n.time, None, clock.first);
      StopKindDiffers();
      GrownMayFollow(n.store.runs, r, e, kind);
      WroteKeeps(h, site, n, m, e, InFile(clock.first), n.time, clock.b) by { hide MayFollow, AddsOther; }
      KeepsLater(h, site, n, m, clock.b, clock.d);
      PutFinds(Logged(h, n).runs, e, id);
      StopConfirms(h, r, x, clock.a, clock.b, e);
      ReplacedOnly(h, n, m, e, InFile(clock.first)) by { hide OnlyChanges; }
    }
  }

  /** The log has what memory has of the run, or what it had before. */
  ghost predicate RecordedIf(h: Hash, n: Node, m: Node, id: Text, kept: bool) {
    Find(Logged(h, m).runs, id) == if kept then Find(m.store.runs, id) else Find(Logged(h, n).runs, id)
  }

  ghost predicate Closed(n: Node, id: Text) {
    Find(n.store.runs, id).Some? && Terminal(Find(n.store.runs, id).value.phase)
  }

  ghost predicate Cancels(n: Node, id: Text) {
    var r := Find(n.store.runs, id);
    r.Some? && r.value.phase.Cancelled? && r.value.stopStatus.StopConfirmed?
  }

  lemma {:induction false} StopConfirms(h: Hash, r: Run, x: Run, u: int, v: int, e: Run)
    requires x == Stopped(r) && Evolve(h, x, Cancelled, StoppedKind(), u, v) == Some(e)
    ensures e.phase.Cancelled? && e.stopStatus.StopConfirmed?
  {
    hide T, StopReason;
    SealedIs(h, Grown(x, Cancelled, StoppedKind(), u, v));
    hide SealRun;
  }

  lemma {:induction false} SoundGood(h: Hash, site: Site, n: Node, r: Run, time: int)
    requires Sound(h, site, n, time) && r in n.store.runs
    ensures Good(h, r, time)
  {
    hide Good, Replay, Behind, Aligned, LinesPass, Prepared, Distinct;
  }

  lemma StopKindDiffers()
    ensures StoppedKind() != RestartedKind()
  {
    NamesDiffer("stopped", "simulation_host_restarted");
  }

  lemma StepKindDiffers(place: int)
    ensures StepKind(place) != RestartedKind()
  {
    hide T;
    NamesDiffer("prepared", "simulation_host_restarted");
    NamesDiffer("approved", "simulation_host_restarted");
    NamesDiffer("pick_simulated", "simulation_host_restarted");
    NamesDiffer("transfer_simulated", "simulation_host_restarted");
    NamesDiffer("place_simulated", "simulation_host_restarted");
    NamesDiffer("simulation_verified", "simulation_host_restarted");
  }

  predicate Due(n: Node, k: nat) {
    k < |n.timers| && Find(n.store.runs, n.timers[k].id).Some?
        && Find(n.store.runs, n.timers[k].id).value.phase.Running?
  }

  /** The last queued timer is due for the first step of the run. */
  predicate FirstStepDue(n: Node, id: Text) {
    n.timers != [] && Due(n, |n.timers| - 1) && n.timers[|n.timers| - 1].id == id && n.timers[|n.timers| - 1].index == 0
  }

  /** What an approval leaves: a run without a timer when its append throws. */
  ghost predicate ApproveLeaves(h: Hash, site: Site, n: Node, w: Written, id: Text, clock: Clock) {
    && (!w.Refused? ==>
          && Keeps(h, site, n, w.node, clock.d) && Runs(w.node, id) && w.node.open
          && (w.Done? <==> clock.first.Appended?) && FileEnds(n, w.node, clock.first))
    && (w.Done? ==> FirstStepDue(w.node, id) && id !in w.node.unlogged)
    && (w.Threw? ==> w.node.timers == n.timers)
  }

  /** An approval is accepted exactly when its guard holds and its own later clock reading is not past the expiry. */
  lemma {:induction false} ApproveKeeps(h: Hash, site: Site, n: Node, id: Text, runDigest: Text, approvalDigest: Text,
            approved: bool, current: Option<Text>, clock: Clock)
    requires Inv(h, site, n) && SitePlain(site) && Ticks(n.time, clock)
    ensures Approve(h, n, id, runDigest, approvalDigest, approved, current, clock).Refused? <==>
              !(n.open && Find(n.store.runs, id).Some?
                && MayApprove(Find(n.store.runs, id).value, runDigest, approvalDigest, approved, current, clock.a)
                && clock.b <= Find(n.store.runs, id).value.approval.expiresAt)
    ensures ApproveLeaves(h, site, n, Approve(h, n, id, runDigest, approvalDigest, approved, current, clock), id, clock)
  {
    hide Good, MayGrow, Evolve, Grown, WriteEvolved, Keeps, T, Put, Sound, TimersFit, Replay, Advances, Succeeded,
         OneOpen, Later, Checks, StepKind, Expected;
    var found := Find(n.store.runs, id);
    if n.open && found.Some? && MayApprove(found.value, runDigest, approvalDigest, approved, current, clock.a) {
      var r, x := found.value, Approved(found.value, clock.b);
      if clock.b <= r.approval.expiresAt {
        SoundGood(h, site, n, r, n.time);
        var e, m := ApprovedWrite(h, site, n, r, clock);
        if clock.first.Appended? {
          var start := Source(r.inputs);
          var t := Timer(id, 0, Virtual(start, start, false));
          FirstExpected(r.inputs);
          QueuedKeeps(h, site, n, m, e, t, clock.d) by { PutFinds(Logged(h, n).runs, e, id); NoTimerWaiting(n, r); }
        }
      } else {
        LateRejected(h, x, Running, StepKind(1), clock.c, clock.d);
        RejectedWrite(h, n, Evolve(h, x, Running, StepKind(1), clock.c, clock.d), None, clock.first);
      }
    }
  }

  ghost predicate Runs(n: Node, id: Text) {
    Find(n.store.runs, id).Some? && Find(n.store.runs, id).value.phase.Running?
  }

  function Events(n: Node, id: Text): nat {
    if Find(n.store.runs, id).Some? then |Find(n.store.runs, id).value.events| else 0
  }

  lemma FirstExpected(inputs: Json)
    ensures Virtual(Source(inputs), Source(inputs), false) == Expected(0, inputs)
  {
  }

  lemma {:induction false} ApprovedWrite(h: Hash, site: Site, n: Node, r: Run, clock: Clock) returns (e: Run, m: Node)
    requires Inv(h, site, n) && SitePlain(site) && Ticks(n.time, clock) && Find(n.store.runs, r.runId) == Some(r)
             && Good(h, r, n.time)
    requires r.phase.WaitingForApproval? && clock.b <= r.approval.expiresAt
    ensures Evolve(h, Approved(r, clock.b), Running, StepKind(1), clock.c, clock.d) == Some(e)
    ensures WriteEvolved(h, n, Some(e), None, clock.first) == Wrote(clock.first, m)
    ensures Keeps(h, site, n, m, clock.d) && Replaced(h, n, m, e, InFile(clock.first))
    ensures e.runId == r.runId && e.phase.Running? && e.inputs == r.inputs && |e.events| == 2
    ensures Find(m.store.runs, r.runId) == Some(e) && FileEnds(n, m, clock.first)
  {
    hide Good, MayGrow, Evolve, Grown, WriteEvolved, Keeps, Put, Sound, TimersFit, Replay, Later, StepKind;
    WaitingHasOne(h, r, n.time);
    ApprovalGrows(h, r, clock.b, clock.c, clock.d, n.time);
    e, m := GrowRun(h, site, n, r, Approved(r, clock.b), Running, StepKind(1), clock.c, clock.d, n.time, None,
            clock.first);
    StepKindDiffers(1);
    GrownMayFollow(n.store.runs, r, e, StepKind(1));
    NoTimerWaiting(n, r);
    WroteKeeps(h, site, n, m, e, InFile(clock.first), n.time, clock.d) by { hide MayFollow, AddsOther; }
  }

  lemma {:induction false} NoTimerWaiting(n: Node, r: Run)
    requires TimersFit(n.store.runs, n.timers) && Find(n.store.runs, r.runId) == Some(r) && r.phase.WaitingForApproval?
    ensures NoTimerOf(n.timers, r.runId)
  {
    hide Expected;
    forall i | 0 <= i < |n.timers| ensures n.timers[i].id != r.runId { assert TimerFits(n.store.runs, n.timers[i]); }
  }

  lemma {:induction false} RejectedWrite(h: Hash, n: Node, e: Option<Run>, evidence: Option<Json>, fate: Append)
    requires e.Some? ==> !Checks(h, e.value)
    ensures WriteEvolved(h, n, e, evidence, fate).Refused?
  {
    hide Checks;
  }

  lemma WaitingHasOne(h: Hash, r: Run, time: int)
    requires Good(h, r, time) && r.phase.WaitingForApproval?
    ensures |r.events| == 1
  {
  }

  lemma LateRejected(h: Hash, x: Run, phase: Phase, kind: Text, u: int, v: int)
    requires !ValidApproval(x.approval)
    ensures var e := Evolve(h, x, phase, kind, u, v); e.Some? ==> !Checks(h, e.value)
  {
    hide Sealed, Digest, Body, Fields;
  }

  // ---------- a load ----------

  /** What a load makes of a run that was active: an unknown outcome, with exactly one more event. */
  predicate ClosedAs(e: Run, r: Run) {
    e.phase.OutcomeUnknown? && Newer(e, r) && Adds(e, r, RestartedKind())
  }

  /** After a load a run the log shows active is closed, and any other run is as the log has it. */
  predicate LoadedAs(before: seq<Run>, after: seq<Run>, due: seq<Run>, id: Text) {
    match Find(before, id)
    case None => Find(after, id).None?
    case Some(r) =>
      && Find(after, id).Some?
      && if Find(due, id).Some? && Interrupted(r.phase) then ClosedAs(Find(after, id).value, r)
         else Find(after, id).value == r
  }

  ghost predicate AllLoaded(before: seq<Run>, after: seq<Run>, due: seq<Run>) {
    forall id :: LoadedAs(before, after, due, id)
  }

  function Active(rs: seq<Run>): nat {
    if rs == [] then 0 else (if Interrupted(rs[0].phase) then 1 else 0) + Active(rs[1..])
  }

  /** What a load that succeeds leaves of the file: its own first append joins a line that was cut. */
  predicate LoadEnds(n: Node, m: Node, count: nat) {
    m.torn == (n.torn || (n.cut && count > 0)) && m.cut == (n.cut && count == 0)
  }

  /** None of the first appends of a load fails. */
  predicate Whole(marks: seq<Mark>, count: nat) {
    forall i :: 0 <= i < count && i < |marks| ==> marks[i].fate.Appended?
  }

  lemma OpenPhases(h: Hash, r: Run, time: int)
    requires Good(h, r, time)
    ensures Interrupted(r.phase) ==> r.phase.Running? && !Terminal(r.phase)
  {
  }

  lemma MarksFrom(marks: seq<Mark>, from: int, last: int)
    requires MarksFit(marks, from, last) && ValidStamp(from) && ValidStamp(last)
    ensures var t := FirstMark(marks, last); from <= t.u <= t.v <= last && ValidStamp(t.u) && ValidStamp(t.v)
    ensures MarksFit(OtherMarks(marks), FirstMark(marks, last).v, last)
  {
    if marks != [] { MarkBefore(marks[1..], marks[0].v, last); }
  }

  lemma MarkBefore(marks: seq<Mark>, from: int, last: int)
    requires MarksFit(marks, from, last)
    ensures from <= last
  {
  }

  lemma WholeFirst(marks: seq<Mark>, count: nat, last: int)
    ensures Whole(marks, count + 1) <==> FirstMark(marks, last).fate.Appended? && Whole(OtherMarks(marks), count)
  {
    if marks != [] {
      assert forall i :: 0 <= i < |marks| - 1 ==> marks[1..][i] == marks[i + 1];
      if marks[0].fate.Appended? && Whole(marks[1..], count) {
        forall i | 0 <= i < count + 1 && i < |marks| ensures marks[i].fate.Appended? {
          if i > 0 { assert marks[1..][i - 1] == marks[i]; }
        }
      }
    }
  }

  /** Closing one active run. */
  lemma {:induction false} CloseOne(h: Hash, site: Site, n: Node, r: Run, mark: Mark, time: int) returns (e: Run,
            m: Node)
    requires Settled(h, site, n, time) && SitePlain(site) && r in n.store.runs && Interrupted(r.phase)
    requires time <= mark.u <= mark.v && ValidStamp(mark.u) && ValidStamp(mark.v)
    ensures CloseRun(h, n, r, mark) == Wrote(mark.fate, m) && Settled(h, site, m, mark.v)
            && Replaced(h, n, m, e, InFile(mark.fate))
    ensures Advances(n.store.runs, m.store.runs) && Advances(Logged(h, n).runs, Logged(h, m).runs)
    ensures OneOpen(n.store.runs) ==> OneOpen(m.store.runs)
    ensures e.runId == r.runId && ClosedAs(e, r) && Find(n.store.runs, r.runId) == Some(r)
            && FileEnds(n, m, mark.fate)
  {
    hide Good, MayGrow, Evolve, T, Put, WriteEvolved, Advances, Replay, RestartedKind, Unknown, TimersFit, Sound,
         Later, OneOpen;
    SoundGood(h, site, n, r, time);
    OpenPhases(h, r, time);
    RestartGrows(h, r, mark.u, mark.v, time);
    e, m := GrowRun(h, site, n, r, Unknown(r), OutcomeUnknown, RestartedKind(), mark.u, mark.v, time, None, mark.fate);
    hide Terminal;
    WroteSettles(h, site, n, m, e, InFile(mark.fate), time, mark.v);
  }

  lemma {:induction false} LoadedStep(before: seq<Run>, e: Run, r: Run, after: seq<Run>, due: seq<Run>)
    requires due != [] && due[0] == r && Interrupted(r.phase) && Find(before, r.runId) == Some(r)
    requires Distinct(due) && e.runId == r.runId && ClosedAs(e, r)
    requires AllLoaded(Put(before, e), after, due[1..])
    ensures AllLoaded(before, after, due)
  {
    hide Put, Newer, Adds;
    forall id ensures LoadedAs(before, after, due, id) {
      assert LoadedAs(Put(before, e), after, due[1..], id);
      PutFinds(before, e, id);
    }
  }

  lemma {:induction false} LoadedSkip(before: seq<Run>, r: Run, after: seq<Run>, due: seq<Run>)
    requires due != [] && due[0] == r && !Interrupted(r.phase) && Find(before, r.runId) == Some(r)
    requires Distinct(due) && AllLoaded(before, after, due[1..])
    ensures AllLoaded(before, after, due)
  {
    hide ClosedAs;
    forall id ensures LoadedAs(before, after, due, id) { assert LoadedAs(before, after, due[1..], id); }
  }

  lemma {:induction false} LoadedNone(before: seq<Run>)
    ensures AllLoaded(before, before, [])
  {
    hide ClosedAs;
    forall id ensures LoadedAs(before, before, [], id) { }
  }

  /** Closing the active runs one after the other: it ends open exactly when none of its appends fails. */
  lemma {:induction false} RecoverSettles(h: Hash, site: Site, n: Node, rs: seq<Run>, marks: seq<Mark>, last: int,
            time: int)
    requires Settled(h, site, n, time) && SitePlain(site) && n.open && n.unlogged == {} && Distinct(rs)
    requires forall r :: r in rs ==> r in n.store.runs
    requires MarksFit(marks, time, last) && ValidStamp(time) && ValidStamp(last)
    ensures var m := Recover(h, n, rs, marks, last);
            && Settled(h, site, m, last) && m.timers == n.timers
            && Advances(n.store.runs, m.store.runs) && Advances(Logged(h, n).runs, Logged(h, m).runs)
            && (OneOpen(n.store.runs) ==> OneOpen(m.store.runs))
            && (m.open <==> Whole(marks, Active(rs)))
            && (m.open ==> m.unlogged == {} && AllLoaded(n.store.runs, m.store.runs, rs) && LoadEnds(n, m, Active(rs)))
    decreases |rs|
  {
    hide Settled, CloseRun, Advances, Replay, OneOpen, ClosedAs, LoadedAs, AllLoaded, MarksFit, Put, Interrupted,
         FirstMark, OtherMarks, Whole, Find, Logged;
    MarkBefore(marks, time, last) by { assert MarksFit(marks, time, last); }
    SettledLater(h, site, n, time, last);
    AdvancesSelf(n.store.runs);
    AdvancesSelf(Logged(h, n).runs);
    if rs == [] {
      LoadedNone(n.store.runs);
      WholeNone(marks);
    } else {
      var r, rest := rs[0], rs[1..];
      assert Find(n.store.runs, r.runId) == Some(r) by {
        FindIs(n.store.runs, r) by { SettledDistinct(h, site, n, time); }
      }
      if !Interrupted(r.phase) {
        RecoverSettles(h, site, n, rest, marks, last, time);
        var m := Recover(h, n, rest, marks, last);
        if m.open { LoadedSkip(n.store.runs, r, m.store.runs, rs); }
      } else {
        var mark := FirstMark(marks, last);
        MarksFrom(marks, time, last);
        WholeFirst(marks, Active(rest), last);
        var e, c := CloseOne(h, site, n, r, mark, time);
        SettledLater(h, site, c, mark.v, last);
        if mark.fate.Appended? {
          SettledDistinct(h, site, n, time);
          ClosedRest(h, n, c, rs, e, mark.fate);
          RecoverSettles(h, site, c, rest, OtherMarks(marks), last, mark.v);
          var m := Recover(h, c, rest, OtherMarks(marks), last);
          AdvancesTransitive(n.store.runs, c.store.runs, m.store.runs);
          AdvancesTransitive(Logged(h, n).runs, Logged(h, c).runs, Logged(h, m).runs);
          if m.open { LoadedStep(n.store.runs, e, r, m.store.runs, rs); }
        } else {
          SettledShut(h, site, c, last);
        }
      }
    }
  }

  lemma {:induction false} RecoverNothing(h: Hash, n: Node, rs: seq<Run>, marks: seq<Mark>, last: int)
    requires forall x :: x in rs ==> !Interrupted(x.phase)
    ensures Recover(h, n, rs, marks, last) == n
  {
    hide CloseRun;
    if rs != [] { RecoverNothing(h, n, rs[1..], marks, last); }
  }

  /** After a load no run is active. */
  lemma {:induction false} LoadedIdle(logged: seq<Run>, held: seq<Run>)
    requires AllLoaded(logged, held, logged) && Distinct(held)
    ensures forall x :: x in held ==> !Interrupted(x.phase)
  {
    hide Adds, Newer;
    forall x | x in held ensures !Interrupted(x.phase) {
      FindIs(held, x);
      assert LoadedAs(logged, held, logged, x.runId);
    }
  }

  lemma WholeNone(marks: seq<Mark>)
    ensures Whole(marks, 0)
  {
  }

  lemma {:induction false} SettledShut(h: Hash, site: Site, n: Node, time: int)
    requires Settled(h, site, n, time)
    ensures Settled(h, site, n.(open := false), time) && Logged(h, n.(open := false)) == Logged(h, n)
  {
    hide Sound, Replay, TimersFit;
    SoundAnyTimers(h, site, n, n.(open := false), time);
  }

  lemma {:induction false} SettledLater(h: Hash, site: Site, n: Node, time: int, later: int)
    requires Settled(h, site, n, time) && time <= later
    ensures Settled(h, site, n, later)
  {
    hide Sound, Replay, TimersFit;
    SoundLater(h, site, n, time, later);
  }

  lemma {:induction false} SettledDistinct(h: Hash, site: Site, n: Node, time: int)
    requires Settled(h, site, n, time)
    ensures Distinct(n.store.runs) && Distinct(Logged(h, n).runs)
  {
    hide Sound, Replay, TimersFit;
    SoundDistinct(h, site, n, time);
  }

  lemma {:induction false} ClosedRest(h: Hash, n: Node, c: Node, rs: seq<Run>, e: Run, fate: Append)
    requires Replaced(h, n, c, e, InFile(fate)) && fate.Appended? && n.open && n.unlogged == {} && rs != []
             && Distinct(rs)
    requires Distinct(n.store.runs) && e.runId == rs[0].runId
    requires forall r :: r in rs ==> r in n.store.runs
    ensures c.open && c.unlogged == {} && Distinct(rs[1..]) && c.timers == n.timers
            && c.store.runs == Put(n.store.runs, e)
    ensures forall r :: r in rs[1..] ==> r in c.store.runs
  {
    hide Put, Replay;
    PutHolds(n.store.runs, e);
  }

  lemma {:induction false} ReloadedSettles(h: Hash, site: Site, n: Node, time: int)
    requires Settled(h, site, n, time)
    ensures Settled(h, site, Reloaded(h, n), time) && Logged(h, Reloaded(h, n)) == Logged(h, n)
    ensures Distinct(Logged(h, n).runs)
  {
    hide Replay, Good, TimersFit, Preparation, Digest, Ordered, SameEvidence;
    var logged := Logged(h, n);
    AlignedSelf(h, site, logged);
    hide WithSnapshot;
    assert Behind(logged.runs, logged.runs, {}) by {
      forall id ensures Lags(logged.runs, logged.runs, {}, id) { }
    }
  }

  /**
   A load replays the log and closes, with exactly one more event, exactly the runs the log
   shows active. It ends open exactly when none of its appends fails.
   */
  lemma {:induction false} LoadKeeps(h: Hash, site: Site, n: Node, clock: Clock, time: int)
    requires Settled(h, site, n, time) && SitePlain(site) && Ticks(time, clock)
    ensures var m, logged := Load(h, n, clock), Logged(h, n).runs;
            && InvAt(h, site, m, clock.d) && m.timers == n.timers
            && Advances(logged, Logged(h, m).runs) && Advances(logged, m.store.runs)
            && (OneOpen(logged) ==> OneOpen(m.store.runs))
            && (m.open <==> Whole(clock.marks, Active(logged)))
            && (m.open ==> m.unlogged == {} && AllLoaded(logged, m.store.runs, logged))
            && (m.open ==> LoadEnds(n, m, Active(logged)))
  {
    var base := Reloaded(h, n);
    ReloadedSettles(h, site, n, time);
    assert time <= clock.a && MarksFit(clock.marks, clock.a, clock.d) && ValidStamp(clock.a) && ValidStamp(clock.d)
      by { TickOrder(time, clock); }
    hide *;
    SettledLater(h, site, base, time, clock.a);
    ReloadedIs(h, n);
    RecoverSettles(h, site, base, base.store.runs, clock.marks, clock.d, clock.a);
    LoadIs(h, n, clock);
    var m := Load(h, n, clock);
    if m.open { LoadEndsAlike(n, base, m, Active(base.store.runs)); }
    LoadedInv(h, site, m, clock.d);
  }

  lemma LoadEndsAlike(n: Node, base: Node, m: Node, count: nat)
    requires base.torn == n.torn && base.cut == n.cut && LoadEnds(base, m, count)
    ensures LoadEnds(n, m, count)
  {
  }

  lemma LoadIs(h: Hash, n: Node, clock: Clock)
    ensures Load(h, n, clock) == Recover(h, Reloaded(h, n), Logged(h, n).runs, clock.marks, clock.d)
  {
    hide Recover, Replay, Reloaded;
  }

  lemma {:induction false} LoadedInv(h: Hash, site: Site, m: Node, time: int)
    requires Settled(h, site, m, time) && (m.open ==> m.unlogged == {})
    ensures InvAt(h, site, m, time)
  {
    hide Settled, Replay;
  }

  lemma ReloadedIs(h: Hash, n: Node)
    ensures var m := Reloaded(h, n);
            && m.open && m.unlogged == {} && m.timers == n.timers && m.torn == n.torn && m.cut == n.cut
            && m.store == Logged(h, n)
  {
    hide Replay;
  }

  lemma {:induction false} NoTimersSettle(h: Hash, site: Site, n: Node, open: bool, time: int)
    requires Settled(h, site, n, time)
    ensures var m := n.(timers := [], open := open); Settled(h, site, m, time) && Logged(h, m) == Logged(h, n)
  {
    hide Sound, Replay;
    SoundAnyTimers(h, site, n, n.(timers := [], open := open), time);
  }

  /** A new process loads exactly when the file is whole and none of its appends fails. */
  lemma {:induction false} RestartKeeps(h: Hash, site: Site, n: Node, clock: Clock, time: int)
    requires Settled(h, site, n, time) && SitePlain(site) && Ticks(time, clock)
    ensures var m, logged := Restart(h, n, clock), Logged(h, n).runs;
            && InvAt(h, site, m, clock.d) && m.timers == []
            && Advances(logged, Logged(h, m).runs) && Advances(logged, m.store.runs)
            && (OneOpen(logged) && OneOpen(n.store.runs) ==> OneOpen(m.store.runs))
            && (m.open <==> !n.torn && Whole(clock.marks, Active(logged)))
            && (m.open ==> m.unlogged == {} && AllLoaded(logged, m.store.runs, logged))
            && (m.open ==> LoadEnds(n, m, Active(logged)))
            && (n.torn ==> m.torn && m.log == n.log)
  {
    hide Settled, Advances, Replay, AllLoaded, Whole, Load, OneOpen;
    if n.torn {
      NoTimersSettle(h, site, n, false, time);
      var m := n.(timers := [], open := false);
      assert Restart(h, n, clock) == m;
      SettledLater(h, site, m, time, clock.d) by { MarkBefore(clock.marks, clock.a, clock.d); }
      SettledBehind(h, site, m, clock.d);
      AdvancesSelf(Logged(h, n).runs);
    } else {
      NoTimersSettle(h, site, n, n.open, time);
      assert n.(timers := [], open := n.open) == n.(timers := []);
      LoadKeeps(h, site, n.(timers := []), clock, time);
    }
  }

  lemma {:induction false} SettledBehind(h: Hash, site: Site, n: Node, time: int)
    requires Settled(h, site, n, time)
    ensures Advances(Logged(h, n).runs, n.store.runs)
  {
    hide Sound, Replay, TimersFit, Advances;
    LogBehind(h, site, n, time);
  }

  /** After a load as many runs are open as the log showed. */
  lemma {:induction false} LoadedOneOpen(logged: seq<Run>, held: seq<Run>)
    requires AllLoaded(logged, held, logged) && Distinct(logged) && OneOpen(held)
    ensures OneOpen(logged)
  {
    hide Adds, Newer;
    forall a, b | a in logged && b in logged && !Terminal(a.phase) && !Terminal(b.phase) ensures a == b {
      FindIs(logged, a);
      FindIs(logged, b);
      assert LoadedAs(logged, held, logged, a.runId) && LoadedAs(logged, held, logged, b.runId);
    }
  }

  // ---------- what a load takes back ----------

  /**
   What a load serves is neither the record nor a newer one, when the record's latest event is
   missing from the log.
   */
  lemma {:induction false} TakenBack(q: Run, p: Run, r: Run)
    requires Diverges(r, p) && Newer(r, p) && r.revision == |r.events| && p.revision == |p.events|
             && q.revision == |q.events|
    requires q == p || ClosedAs(q, p)
    ensures !Later(q, r)
  {
    hide RestartedKind, Matches;
  }

  /**
   A load that succeeds serves each record again, or a newer one that extends it, exactly when the
   record's latest write was logged.
   */
  lemma {:induction false} LoadTakesBack(h: Hash, site: Site, n: Node, m: Node, r: Run, time: int, later: int)
    requires InvAt(h, site, n, time) && n.open && r in n.store.runs
    requires InvAt(h, site, m, later) && m.open && Advances(Logged(h, n).runs, m.store.runs)
    requires AllLoaded(Logged(h, n).runs, m.store.runs, Logged(h, n).runs)
    ensures Succeeded(m.store.runs, r) <==> r.runId !in n.unlogged
  {
    var logged, id := Logged(h, n).runs, r.runId;
    assert Lags(logged, n.store.runs, n.unlogged, id) && Find(n.store.runs, id) == Some(r) by {
      SettledDistinct(h, site, n, time) by { hide Settled; }
      FindIs(n.store.runs, r);
      hide Aligned, Holds, LinesPass, Replay;
    }
    if id !in n.unlogged {
      assert r in logged;
    } else {
      if q :| q in m.store.runs && Continues(q, r) { NotAfterLoad(h, site, n, m, q, r, time, later); }
    }
  }

  lemma {:induction false} NotAfterLoad(h: Hash, site: Site, n: Node, m: Node, q: Run, r: Run, time: int, later: int)
    requires InvAt(h, site, n, time) && n.open && Find(n.store.runs, r.runId) == Some(r) && r.runId in n.unlogged
    requires InvAt(h, site, m, later) && q in m.store.runs && q.runId == r.runId
    requires AllLoaded(Logged(h, n).runs, m.store.runs, Logged(h, n).runs)
    ensures !Later(q, r)
  {
    hide Settled, Newer, Diverges, ClosedAs, Later, Replay;
    var logged, id := Logged(h, n).runs, r.runId;
    FoundOnly(h, site, m, q, later);
    SettledLags(h, site, n, id, time);
    assert LoadedAs(logged, m.store.runs, logged, id);
    var p := Find(logged, id).value;
    CountsEvents(h, site, n, r, p, time);
    SettledGood(h, site, m, q, later);
    TakenBack(q, p, r);
  }

  lemma {:induction false} SettledLags(h: Hash, site: Site, n: Node, id: Text, time: int)
    requires Settled(h, site, n, time)
    ensures Lags(Logged(h, n).runs, n.store.runs, n.unlogged, id)
  {
    hide Aligned, Holds, LinesPass, Replay, TimersFit, Lags;
  }

  lemma {:induction false} FoundOnly(h: Hash, site: Site, n: Node, r: Run, time: int)
    requires Settled(h, site, n, time) && r in n.store.runs
    ensures Find(n.store.runs, r.runId) == Some(r)
  {
    SettledDistinct(h, site, n, time) by { hide Settled; }
    hide Settled;
    FindIs(n.store.runs, r);
  }

  lemma {:induction false} SettledGood(h: Hash, site: Site, n: Node, r: Run, time: int)
    requires Settled(h, site, n, time) && r in n.store.runs
    ensures r.revision == |r.events|
  {
    assert Good(h, r, time) by {
      hide Good, TimersFit, Replay, Behind, Aligned, LinesPass;
      SoundGood(h, site, n, r, time);
    }
    hide Settled, Normalized, Trip, PlainRecord;
  }

  lemma {:induction false} CountsEvents(h: Hash, site: Site, n: Node, r: Run, p: Run, time: int)
    requires Settled(h, site, n, time) && r in n.store.runs && p in Logged(h, n).runs
    ensures r.revision == |r.events| && p.revision == |p.events|
  {
    SettledGood(h, site, n, r, time) by { hide Settled; }
    assert Good(h, p, time) by { hide Good, TimersFit, Replay, Behind, Aligned, LinesPass; }
    hide Settled, Normalized, Trip, PlainRecord;
  }

  // ---------- timers ----------

  lemma {:induction false} UnqueueKeeps(h: Hash, site: Site, n: Node, k: nat, time: int)
    requires InvAt(h, site, n, time) && k < |n.timers|
    ensures Keeps(h, site, n, Unqueue(n, k), time) && NoTimerOf(Unqueue(n, k).timers, n.timers[k].id)
    ensures Logged(h, Unqueue(n, k)) == Logged(h, n)
  {
    hide Sound, Replay, TimerFits, OneOpen, Advances, NoneRepeated;
    AdvancesSelf(n.store.runs);
    AdvancesSelf(Logged(h, n).runs);
    SoundAnyTimers(h, site, n, Unqueue(n, k), time);
  }

  lemma MoveExpected(index: nat, inputs: Json)
    requires index <= 2
    ensures index < 2 ==> Move(Expected(index, inputs), index, inputs) == Expected(index + 1, inputs)
    ensures index == 2 ==> Verified(Move(Expected(2, inputs), 2, inputs), inputs)
    ensures index == 2 ==> Move(Expected(2, inputs), 2, inputs) == Virtual(Destination(inputs), Destination(inputs),
                false)
  {
  }

  lemma {:induction false} LookupIn(ms: seq<Pair<Json>>, key: Text)
    ensures Lookup(ms, key).Some? ==> exists i :: 0 <= i < |ms| && ms[i].value == Lookup(ms, key).value
  {
    if ms != [] && ms[0].key != key && Lookup(ms, key).Some? {
      LookupIn(ms[1..], key);
      var i :| 0 <= i < |ms[1..]| && ms[1..][i].value == Lookup(ms[1..], key).value;
      assert ms[i + 1].value == Lookup(ms, key).value;
    }
  }

  lemma DestinationPrinted(h: Hash, r: Run, time: int)
    requires Good(h, r, time)
    ensures Printed(Destination(r.inputs))
  {
    LookupIn(r.inputs.members, T("destination"));
    var i :| 0 <= i < |r.inputs.members|
        && r.inputs.members[i].value == Lookup(r.inputs.members, T("destination")).value;
    hide T;
    var member := r.inputs.members[i];
    assert member.value == Str(Destination(r.inputs)) by { assert HasText(r.inputs, T("destination")); }
    assert Printable(r.inputs, 0, COMPARE_DEPTH);
    assert PrintableMember(member, 1, COMPARE_DEPTH);
    assert Printable(member.value, 1, COMPARE_DEPTH);
  }

  /** What the run of a due timer satisfies. */
  lemma {:induction false} DueRun(h: Hash, site: Site, n: Node, k: nat, time: int)
    requires InvAt(h, site, n, time) && Due(n, k)
    ensures var t, r := n.timers[k], Find(n.store.runs, n.timers[k].id).value;
            && r in n.store.runs && r.runId == t.id && Good(h, r, time) && t.index <= 2 && |r.events| == t.index + 2
            && t.virtual == Expected(t.index, r.inputs)
  {
    SoundGood(h, site, n, Find(n.store.runs, n.timers[k].id).value, time) by { hide Sound, TimersFit; }
    hide Good, Sound, Expected;
    assert TimerFits(n.store.runs, n.timers[k]);
  }

  /** The last queued timer is the given one. */
  predicate QueuedLast(n: Node, id: Text, index: nat) {
    n.timers != [] && n.timers[|n.timers| - 1].id == id && n.timers[|n.timers| - 1].index == index
  }

  predicate Fires(h: Hash, n: Node, k: nat, clock: Clock, w: Written)
    requires Due(n, k)
  {
    var t, r := n.timers[k], Find(n.store.runs, n.timers[k].id).value;
    WriteEvolved(h, Unqueue(n, k), Evolve(h, r, Running, StepKind(t.index + 2), clock.a, clock.b), None, clock.first)
        == w
  }

  lemma {:induction false} StepGrown(h: Hash, site: Site, idle: Node, r: Run, u: int, v: int, fate: Append,
            time: int) returns (e: Run, m: Node)
    requires SitePlain(site) && Sound(h, site, idle, time) && time <= u <= v && ValidStamp(u) && ValidStamp(v)
    requires r in idle.store.runs && Good(h, r, time) && r.phase.Running? && |r.events| < 5
    ensures Evolve(h, r, Running, StepKind(|r.events|), u, v) == Some(e)
    ensures WriteEvolved(h, idle, Some(e), None, fate) == Wrote(fate, m)
    ensures Sound(h, site, m, v) && Replaced(h, idle, m, e, InFile(fate)) && FileEnds(idle, m, fate)
    ensures e.runId == r.runId && e.phase.Running? && |e.events| == |r.events| + 1 && e.inputs == r.inputs
    ensures Find(m.store.runs, e.runId) == Some(e) && MayFollow(idle.store.runs, e) && AddsOther(idle.store.runs, e)
  {
    hide Good, MayGrow, Evolve, Grown, T, WriteEvolved, StepKind, Sound, Later, Replaced, Find;
    var kind := StepKind(|r.events|);
    StepGrows(h, r, u, v, time);
    e, m := GrowRun(h, site, idle, r, r, Running, kind, u, v, time, None, fate);
    StepKindDiffers(|r.events|);
    hide MayFollow, AddsOther;
    GrownMayFollow(idle.store.runs, r, e, kind);
  }

  lemma TickOrder(time: int, clock: Clock)
    requires Ticks(time, clock)
    ensures time <= clock.a <= clock.b <= clock.c <= clock.d && ValidStamp(clock.c) && ValidStamp(clock.d)
  {
  }

  lemma TickStamps(time: int, clock: Clock)
    requires Ticks(time, clock)
    ensures time <= clock.a <= clock.b && ValidStamp(clock.a) && ValidStamp(clock.b)
  {
  }

  /** A due timer's write is never refused and adds its event. */
  lemma {:induction false} StepWrites(h: Hash, site: Site, n: Node, k: nat, clock: Clock) returns (e: Run, m: Node)
    requires SitePlain(site) && Inv(h, site, n) && Ticks(n.time, clock) && Due(n, k)
    ensures n.timers[k].index <= 2 && Fires(h, n, k, clock, Wrote(clock.first, m)) && Keeps(h, site, n, m, clock.b)
    ensures var t, r := n.timers[k], Find(n.store.runs, n.timers[k].id).value;
            && e.runId == t.id && e.phase.Running? && |e.events| == t.index + 3 && e.inputs == r.inputs
            && |e.events| == |r.events| + 1 && t.virtual == Expected(t.index, e.inputs)
    ensures Find(m.store.runs, e.runId) == Some(e) && m.timers == Unqueue(n, k).timers && NoTimerOf(m.timers, e.runId)
    ensures InFile(clock.first) ==> Find(Logged(h, m).runs, e.runId) == Some(e)
    ensures m.open == n.open && FileEnds(n, m, clock.first)
    ensures m.unlogged == if InFile(clock.first) then n.unlogged - {e.runId} else n.unlogged + {e.runId}
  {
    var idle, r := Unqueue(n, k), Find(n.store.runs, n.timers[k].id).value;
    DueRun(h, site, n, k, n.time);
    hide Good, Evolve, Put, Replay, InvAt, Expected, Sound, MayFollow, AddsOther, Keeps, NoTimerOf, Ticks, Find,
         WriteEvolved, FileEnds;
    TickStamps(n.time, clock);
    UnqueueKeeps(h, site, n, k, n.time);
    KeptInvAt(h, site, n, idle, n.time);
    InvAtSound(h, site, idle, n.time);
    e, m := StepGrown(h, site, idle, r, clock.a, clock.b, clock.first, n.time);
    FileEndsAlike(n, idle, m, clock.first);
    PutFinds(Logged(h, n).runs, e, e.runId);
    WroteKeeps(h, site, idle, m, e, InFile(clock.first), n.time, clock.b);
    KeepsTransitive(h, site, n, idle, m, n.time, clock.b);
  }

  lemma FileEndsAlike(n: Node, idle: Node, m: Node, fate: Append)
    requires FileEnds(idle, m, fate) && idle.torn == n.torn && idle.cut == n.cut
    ensures FileEnds(n, m, fate)
  {
  }

  lemma InvAtSound(h: Hash, site: Site, n: Node, time: int)
    requires InvAt(h, site, n, time)
    ensures Sound(h, site, n, time)
  {
    hide Sound;
  }

  lemma {:induction false} KeptInvAt(h: Hash, site: Site, n: Node, m: Node, time: int)
    requires Keeps(h, site, n, m, time)
    ensures InvAt(h, site, m, time)
  {
    hide InvAt;
  }

  lemma {:induction false} FireIs(h: Hash, n: Node, k: nat, clock: Clock, interrupted: bool, m: Node)
    requires Due(n, k) && Fires(h, n, k, clock, Wrote(clock.first, m))
    ensures var t, inputs := n.timers[k], Find(n.store.runs, n.timers[k].id).value.inputs;
            Fire(h, n, k, clock, interrupted) ==
              if !clock.first.Appended? then m
              else if t.index < 2 then
                     m.(timers := m.timers + [Timer(t.id, t.index + 1, Move(t.virtual, t.index, inputs))])
              else if interrupted then m.(open := false, timers := [])
              else Or(m, Verify(h, m, t.id, Move(t.virtual, t.index, inputs), clock))
  {
    hide Evolve, WriteEvolved, StepKind, Move, Verify;
  }

  /** What a due timer before the last step leaves. */
  ghost predicate EarlyFires(h: Hash, site: Site, n: Node, k: nat, clock: Clock, m: Node)
    requires k < |n.timers|
  {
    var t := n.timers[k];
    && Keeps(h, site, n, m, clock.d) && Runs(m, t.id) && m.open == n.open && FileEnds(n, m, clock.first)
    && Events(m, t.id) == Events(n, t.id) + 1
    && (if clock.first.Appended? then QueuedLast(m, t.id, t.index + 1) && m.unlogged == n.unlogged - {t.id}
        else m.timers == Unqueue(n, k).timers)
  }

  /** The first two steps write their event and queue the next one, unless their append throws. */
  lemma {:induction false} EarlyStep(h: Hash, site: Site, n: Node, k: nat, clock: Clock, interrupted: bool)
    requires SitePlain(site) && Inv(h, site, n) && Ticks(n.time, clock) && Due(n, k) && n.timers[k].index < 2
    ensures EarlyFires(h, site, n, k, clock, Fire(h, n, k, clock, interrupted))
  {
    hide Replay, Keeps, Move, Expected, InvAt, Fire, Fires, Find, NoTimerOf, T;
    var t, r := n.timers[k], Find(n.store.runs, n.timers[k].id).value;
    var e, m := StepWrites(h, site, n, k, clock);
    FireIs(h, n, k, clock, interrupted, m);
    MoveExpected(t.index, r.inputs);
    TickOrder(n.time, clock);
    hide Ticks;
    KeepsLater(h, site, n, m, clock.b, clock.d);
    if clock.first.Appended? {
      var v := Move(t.virtual, t.index, r.inputs);
      QueuedKeeps(h, site, n, m, e, Timer(t.id, t.index + 1, v), clock.d);
    }
  }

  /** A timer of the third step whose process ends after its first write, or whose first append throws. */
  lemma {:induction false} LastInterrupted(h: Hash, site: Site, n: Node, k: nat, clock: Clock, interrupted: bool)
    requires SitePlain(site) && Inv(h, site, n) && Ticks(n.time, clock) && Due(n, k) && n.timers[k].index == 2
    requires interrupted || !clock.first.Appended?
    ensures var m, id := Fire(h, n, k, clock, interrupted), n.timers[k].id;
            && Keeps(h, site, n, m, clock.d) && Runs(m, id) && Events(m, id) == 5
            && FileEnds(n, m, clock.first)
            && (clock.first.Appended? ==> !m.open && Find(Logged(h, m).runs, id) == Find(m.store.runs, id))
  {
    hide Replay, Keeps, Move, Expected, InvAt, Fire, Fires, Find, NoTimerOf;
    var e, m := StepWrites(h, site, n, k, clock);
    FireIs(h, n, k, clock, interrupted, m);
    TickOrder(n.time, clock);
    hide Ticks;
    KeepsLater(h, site, n, m, clock.b, clock.d);
    if clock.first.Appended? {
      EndedKeeps(h, site, n, m, clock.d);
    }
  }

  lemma {:induction false} EndedKeeps(h: Hash, site: Site, n: Node, m: Node, time: int)
    requires Keeps(h, site, n, m, time)
    ensures var q := m.(open := false, timers := []); Keeps(h, site, n, q, time) && Logged(h, q) == Logged(h, m)
  {
    hide Settled, Replay, Advances, OneOpen, NoneRepeated;
    NoTimersSettle(h, site, m, false, time);
    assert m.(timers := [], open := false) == m.(open := false, timers := []);
  }

  /** The final check of a finished script always succeeds, in memory at once. */
  lemma {:induction false} VerifyKeeps(h: Hash, site: Site, m: Node, r: Run, clock: Clock, time: int)
    requires Guards(h, site) && ShortHash(h) && SitePlain(site) && InvAt(h, site, m, time)
    requires time <= clock.c <= clock.d && ValidStamp(clock.c) && ValidStamp(clock.d)
    requires Find(m.store.runs, r.runId) == Some(r) && r.phase.Running? && |r.events| == 5
             && NoTimerOf(m.timers, r.runId)
    ensures var w := Verify(h, m, r.runId, Virtual(Destination(r.inputs), Destination(r.inputs), false), clock);
            && !w.Refused? && (w.Done? <==> clock.second.Appended?) && Keeps(h, site, m, w.node, clock.d)
            && Succeeds(w.node, r.runId)
            && w.node.open == m.open && FileEnds(m, w.node, clock.second)
            && w.node.unlogged == (if InFile(clock.second) then m.unlogged - {r.runId} else m.unlogged + {r.runId})
            && RecordedIf(h, m, w.node, r.runId, InFile(clock.second))
  {
    hide MayGrow, Evolve, Grown, T, Put, WriteEvolved, Advances, Replay, Digest, Evidence, OneOpen, StepKind,
         CheckReason, TimersFit, Sound, Keeps, Later;
    SoundGood(h, site, m, r, time);
    DestinationPrinted(h, r, time);
    hide Good, Guards, ShortHash;
    var v := Virtual(Destination(r.inputs), Destination(r.inputs), false);
    EvidencePrints(h, true, v);
    EvidenceDiffers(h, site, true, v);
    var evidence := Evidence(true, v);
    DigestPlain(h, evidence);
    var digest := Digest(h, evidence).value;
    CheckGrows(h, r, digest, clock.c, clock.d, time);
    var x := Ended(r, VerifiedSuccess, CheckReason(true), Some(digest));
    var e, q := GrowRun(h, site, m, r, x, VerifiedSuccess, StepKind(5), clock.c, clock.d, time, Some(evidence),
            clock.second);
    assert Verify(h, m, r.runId, v, clock) == Wrote(clock.second, q);
    StepKindDiffers(5);
    GrownMayFollow(m.store.runs, r, e, StepKind(5));
    PutFinds(Logged(h, m).runs, e, r.runId);
    hide MayFollow, AddsOther, Verify, NoTimerOf;
    WroteKeeps(h, site, m, q, e, InFile(clock.second), time, clock.d);
  }

  ghost predicate Succeeds(n: Node, id: Text) {
    Find(n.store.runs, id).Some? && Find(n.store.runs, id).value.phase.VerifiedSuccess?
  }

  lemma DigestPlain(h: Hash, v: Json)
    requires ShortHash(h) && Digest(h, v).Some?
    ensures Plain(Digest(h, v).value)
  {
  }

  /** What the last due timer leaves. */
  ghost predicate LastFires(h: Hash, site: Site, n: Node, k: nat, clock: Clock, m: Node)
    requires k < |n.timers|
  {
    var id := n.timers[k].id;
    && Keeps(h, site, n, m, clock.d) && Succeeds(m, id) && m.open == n.open
    && m.torn == (n.torn || n.cut || clock.second.Torn?) && m.cut == clock.second.Cut?
    && m.unlogged == (if InFile(clock.second) then n.unlogged - {id} else n.unlogged + {id})
    && (!InFile(clock.second) ==> LoggedRunning(h, m, id))
  }

  ghost predicate LoggedRunning(h: Hash, n: Node, id: Text) {
    Find(Logged(h, n).runs, id).Some? && Find(Logged(h, n).runs, id).value.phase.Running?
  }

  /** The third step ends in verified success in memory, whether or not its last append throws. */
  lemma {:induction false} LastStep(h: Hash, site: Site, n: Node, k: nat, clock: Clock)
    requires Guards(h, site) && ShortHash(h) && SitePlain(site) && Inv(h, site, n) && Ticks(n.time, clock)
    requires Due(n, k) && n.timers[k].index == 2 && clock.first.Appended?
    ensures LastFires(h, site, n, k, clock, Fire(h, n, k, clock, false))
  {
    hide Replay, Keeps, Move, Expected, InvAt, Fire, Fires, Find, NoTimerOf, Guards, ShortHash, Verify;
    var e, m := StepWrites(h, site, n, k, clock);
    FireIs(h, n, k, clock, false, m);
    TickOrder(n.time, clock);
    hide Ticks;
    MoveExpected(2, e.inputs);
    KeptInvAt(h, site, n, m, clock.b);
    VerifyKeeps(h, site, m, e, clock, clock.b);
    var v := Virtual(Destination(e.inputs), Destination(e.inputs), false);
    var q := Verify(h, m, e.runId, v, clock).node;
    KeepsTransitive(h, site, n, m, q, clock.b, clock.d);
  }
}
