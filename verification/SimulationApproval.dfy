/**
 What an approval of the simulated Node is, field by field, and that no run was ever started
 without one: over whole histories, through failing appends, interruptions and loads.
 */
module SimulationApproval {
  import opened Options
  import opened Texts
  import opened JsonText
  import opened Digests
  import opened RunContract
  import opened RunDepth
  import opened SimulationNode
  import opened SimulationRecords
  import opened SimulationStore
  import opened SimulationSafety
  import opened SimulationRuns
  import opened SimulationEffects

  // ---------- one approval ----------

  /** The request says yes, to this very record and approval, in time, for the route it was prepared for. */
  predicate Agrees(w: Run, e: Step, clock: Clock) {
    && e.DoApprove? && e.approved && e.id == w.runId && w.phase == WaitingForApproval
    && e.runDigest == w.runDigest && e.approvalDigest == w.approval.digest && e.current == Some(w.routeReceiptDigest)
    && clock.a < w.approval.expiresAt && clock.b <= w.approval.expiresAt
  }

  /** What an approval makes of the waiting record. */
  predicate StartedFrom(q: Run, w: Run, clock: Clock) {
    && q.runId == w.runId && q.phase == Running && q.revision == w.revision + 1 && q.updatedAt == clock.c
    && q.approval == Approval(w.approval.digest, w.approval.expiresAt, Some(clock.b))
    && q.events == w.events + [Event(|w.events| + 1, T("approved"), clock.d, SimulationMode())]
    && q == w.(phase := q.phase, revision := q.revision, updatedAt := q.updatedAt, approval := q.approval,
               events := q.events, runDigest := q.runDigest)
  }

  /** The run is stored as started, and its first timer waits unless the append threw. */
  ghost predicate Starts(h: Hash, n: Node, m: Node, w: Run, clock: Clock) {
    && (exists q :: StartedFrom(q, w, clock) && Recorded(h, n, m, q, None, None, clock.first))
    && m.open && m.time == clock.d
    && if clock.first == Appended
       then m.timers == n.timers + [Timer(w.runId, 0, Virtual(Source(w.inputs), Source(w.inputs), false))]
       else m.timers == n.timers
  }

  lemma {:induction false} EvolvedAs(h: Hash, w: Run, clock: Clock)
    ensures var e := Evolve(h, Approved(w, clock.b), Running, StepKind(1), clock.c, clock.d);
            e.Some? ==> StartedFrom(e.value, w, clock)
  {
    hide T, Digest, Body;
  }

  /** The answer to a request: a run starts where it agrees with the stored record, and nothing changes where not. */
  ghost predicate Answered(h: Hash, n: Node, m: Node, e: Step, clock: Clock) {
    if n.open && exists w :: w in n.store.runs && Agrees(w, e, clock)
    then exists w :: w in n.store.runs && Agrees(w, e, clock) && Starts(h, n, m, w, clock)
    else m == n.(time := clock.d)
  }

  /**
   An approval starts a run exactly when the session is open and the request agrees with the stored
   record of it; otherwise nothing changes but the time.
   */
  lemma {:induction false} ApprovedIff(h: Hash, site: Site, n: Node, e: Step, clock: Clock)
    requires Inv(h, site, n) && SitePlain(site) && Ticks(n.time, clock) && e.DoApprove?
    ensures Answered(h, n, Next(h, site, n, e, clock), e, clock)
  {
    hide Inv, Ticks, Put, Replay, Keeps, Evolve, WriteEvolved, T, StepKind, InvAt, Starts, Source, StartedFrom;
    StoredOnce(h, site, n);
    ApproveKeeps(h, site, n, e.id, e.runDigest, e.approvalDigest, e.approved, e.current, clock);
    var found := Find(n.store.runs, e.id);
    if n.open && exists w :: w in n.store.runs && Agrees(w, e, clock) {
      var w :| w in n.store.runs && Agrees(w, e, clock);
      FindIs(n.store.runs, w);
      hide Distinct, Find;
      ApprovalStarts(h, site, n, w, e, clock);
    } else {
      assert Approve(h, n, e.id, e.runDigest, e.approvalDigest, e.approved, e.current, clock).Refused? by {
        if n.open && found.Some? { assert !Agrees(found.value, e, clock); }
      }
    }
  }

  lemma {:induction false} ApprovalStarts(h: Hash, site: Site, n: Node, w: Run, e: Step, clock: Clock)
    requires Inv(h, site, n) && SitePlain(site) && Ticks(n.time, clock) && Agrees(w, e, clock) && n.open
    requires Find(n.store.runs, w.runId) == Some(w)
    ensures Starts(h, n, Next(h, site, n, e, clock), w, clock)
  {
    hide Inv, Ticks, Put, Replay, Keeps, Evolve, Write, T, StepKind, InvAt, Source, StartedFrom, FileEnds, Recorded,
         ApproveLeaves;
    ApproveKeeps(h, site, n, e.id, e.runDigest, e.approvalDigest, e.approved, e.current, clock);
    var next := Evolve(h, Approved(w, clock.b), Running, StepKind(1), clock.c, clock.d);
    EvolvedAs(h, w, clock);
    if next.Some? {
      WriteRecords(h, n, next.value, None, None, clock.first);
      var m := Write(h, n, next.value, None, None, clock.first).node;
      RecordedTimers(h, n, m, Next(h, site, n, e, clock), next.value, clock.first);
    }
  }

  lemma RecordedTimers(h: Hash, n: Node, w: Node, m: Node, q: Run, fate: Append)
    requires Recorded(h, n, w, q, None, None, fate) && m == w.(timers := m.timers, time := m.time)
    ensures Recorded(h, n, m, q, None, None, fate)
  {
    hide Placed, UnderDigest;
  }

  // ---------- where stored approvals come from ----------

  /** One approval that was given, with what it was given for. */
  datatype Grant = Grant(id: Text, digest: Text, expiresAt: int, route: Text, inputs: Json, at: int)

  function GrantOf(r: Run): Grant
    requires r.approval.approvedAt.Some?
  {
    Grant(r.runId, r.approval.digest, r.approval.expiresAt, r.routeReceiptDigest, r.inputs,
          r.approval.approvedAt.value)
  }

  predicate Under(r: Run, g: set<Grant>) { r.approval.approvedAt.Some? ==> GrantOf(r) in g }

  /** Whatever memory or the log holds as approved was granted. */
  predicate AllUnder(n: Node, g: set<Grant>) {
    (forall r :: r in n.store.runs ==> Under(r, g)) && forall l :: l in n.log ==> Under(l.run, g)
  }

  lemma {:induction false} ReplayUnder(h: Hash, log: seq<Line>, g: set<Grant>)
    requires forall l :: l in log ==> Under(l.run, g)
    ensures forall r :: r in Replay(h, log).runs ==> Under(r, g)
  {
    if log != [] {
      var last := log[|log| - 1];
      ReplayUnder(h, log[..|log| - 1], g);
      forall r | r in Replay(h, log).runs ensures Under(r, g) {
        PutMembers(Replay(h, log[..|log| - 1]).runs, last.run, r);
      }
    }
  }

  lemma {:induction false} WriteUnder(h: Hash, n: Node, next: Option<Run>, preparation: Option<Json>,
            evidence: Option<Json>, fate: Append, g: set<Grant>)
    requires AllUnder(n, g) && next.Some? && Under(next.value, g)
    ensures var w := Write(h, n, next.value, preparation, evidence, fate); w.Refused? || AllUnder(w.node, g)
  {
    hide Checks, Put, Under;
    var m := Write(h, n, next.value, preparation, evidence, fate);
    if !m.Refused? {
      forall r | r in m.node.store.runs ensures Under(r, g) { PutMembers(n.store.runs, next.value, r); }
    }
  }

  /** The next record of a run keeps its approval. */
  lemma {:induction false} EvolveUnder(h: Hash, r: Run, phase: Phase, kind: Text, u: int, v: int, g: set<Grant>)
    requires Under(r, g)
    ensures Evolve(h, r, phase, kind, u, v).Some? ==> Under(Evolve(h, r, phase, kind, u, v).value, g)
  {
    hide Digest, Body;
  }

  lemma {:induction false} WriteNextUnder(h: Hash, n: Node, next: Option<Run>, evidence: Option<Json>, fate: Append,
            g: set<Grant>)
    requires AllUnder(n, g) && (next.Some? ==> Under(next.value, g))
    ensures var w := WriteEvolved(h, n, next, evidence, fate); w.Refused? || AllUnder(w.node, g)
  {
    hide AllUnder, Write, Under;
    if next.Some? { WriteUnder(h, n, next, None, evidence, fate, g); }
  }

  lemma {:induction false} PrepareUnder(h: Hash, site: Site, n: Node, id: Text, inputs: Json, route: Text,
            approval: Text, clock: Clock, g: set<Grant>)
    requires AllUnder(n, g)
    ensures AllUnder(Or(n, Prepare(h, site, n, id, inputs, route, approval, clock)), g)
  {
    hide T, Digest, Body, Write, AllUnder, Preparation;
    if n.open && !AnyOpen(n.store.runs) && Digest(h, Preparation(site)).Some? {
      var next := SealRun(h, NewRun(site, id, inputs, route, Digest(h, Preparation(site)).value, approval, clock));
      if next.Some? { WriteUnder(h, n, next, Some(Preparation(site)), None, clock.first, g); }
    }
  }

  /** What one step grants: the approval of a stored record that the request agrees with. */
  function Granted(n: Node, e: Step, clock: Clock): set<Grant> {
    if n.open then set w | w in n.store.runs && Agrees(w, e, clock) :: GrantOf(Approved(w, clock.b)) else {}
  }

  lemma {:induction false} MoreUnder(n: Node, g: set<Grant>, more: set<Grant>)
    requires AllUnder(n, g)
    ensures AllUnder(n, g + more)
  {
  }

  lemma UnderAlike(n: Node, m: Node, g: set<Grant>)
    requires AllUnder(n, g) && m.store.runs == n.store.runs && m.log == n.log
    ensures AllUnder(m, g)
  {
  }

  lemma {:induction false} ApproveUnder(h: Hash, site: Site, n: Node, e: Step, clock: Clock, g: set<Grant>)
    requires AllUnder(n, g) && e.DoApprove?
    requires Inv(h, site, n) && SitePlain(site) && Ticks(n.time, clock)
    ensures AllUnder(Next(h, site, n, e, clock), g + Granted(n, e, clock))
  {
    hide Inv, Ticks, AllUnder, Keeps, Find, WriteEvolved, Evolve, Source, StepKind, ApproveLeaves;
    ApproveKeeps(h, site, n, e.id, e.runDigest, e.approvalDigest, e.approved, e.current, clock);
    var all := g + Granted(n, e, clock);
    MoreUnder(n, g, Granted(n, e, clock));
    var w := Approve(h, n, e.id, e.runDigest, e.approvalDigest, e.approved, e.current, clock);
    var m := Next(h, site, n, e, clock);
    if w.Refused? {
      UnderAlike(n, m, all);
    } else {
      var x := Approved(Find(n.store.runs, e.id).value, clock.b);
      GrantsNow(n, e, clock);
      hide Granted;
      EvolveUnder(h, x, Running, StepKind(1), clock.c, clock.d, all);
      var next := Evolve(h, x, Running, StepKind(1), clock.c, clock.d);
      WriteNextUnder(h, n, next, None, clock.first, all);
      UnderAlike(WriteEvolved(h, n, next, None, clock.first).node, m, all);
    }
  }

  lemma GrantsNow(n: Node, e: Step, clock: Clock)
    requires e.DoApprove? && n.open && Find(n.store.runs, e.id).Some?
    requires MayApprove(Find(n.store.runs, e.id).value, e.runDigest, e.approvalDigest, e.approved, e.current, clock.a)
    requires clock.b <= Find(n.store.runs, e.id).value.approval.expiresAt
    ensures GrantOf(Approved(Find(n.store.runs, e.id).value, clock.b)) in Granted(n, e, clock)
  {
    assert Agrees(Find(n.store.runs, e.id).value, e, clock);
  }

  lemma {:induction false} StopUnder(h: Hash, n: Node, id: Text, clock: Clock, g: set<Grant>)
    requires AllUnder(n, g)
    ensures AllUnder(Or(n, Stop(h, n, id, clock)), g)
  {
    hide Evolve, WriteEvolved, StoppedKind, StopReason;
    var r := Find(n.store.runs, id);
    if n.open && r.Some? && !Terminal(r.value.phase) {
      var next := Evolve(h, Stopped(r.value), Cancelled, StoppedKind(), clock.a, clock.b);
      EvolveUnder(h, Stopped(r.value), Cancelled, StoppedKind(), clock.a, clock.b, g);
      hide AllUnder, Under;
      WriteNextUnder(h, n, next, None, clock.first, g);
    }
  }

  lemma {:induction false} VerifyUnder(h: Hash, n: Node, id: Text, v: Virtual, clock: Clock, g: set<Grant>)
    requires AllUnder(n, g)
    ensures AllUnder(Or(n, Verify(h, n, id, v, clock)), g)
  {
    hide Evolve, WriteEvolved, StepKind, CheckReason, Evidence, Digest, Verified;
    var r := Find(n.store.runs, id);
    if r.Some? {
      var verified := Verified(v, r.value.inputs);
      var evidence, phase := Evidence(verified, v), if verified then VerifiedSuccess else Failed;
      if Digest(h, evidence).Some? {
        var x := Ended(r.value, phase, CheckReason(verified), Some(Digest(h, evidence).value));
        EvolveUnder(h, x, phase, StepKind(5), clock.c, clock.d, g);
        hide AllUnder, Under;
        WriteNextUnder(h, n, Evolve(h, x, phase, StepKind(5), clock.c, clock.d), Some(evidence), clock.second, g);
      }
    }
  }

  lemma {:induction false} FireUnder(h: Hash, n: Node, k: nat, clock: Clock, interrupted: bool, g: set<Grant>)
    requires AllUnder(n, g) && k < |n.timers|
    ensures AllUnder(Fire(h, n, k, clock, interrupted), g)
  {
    hide Evolve, WriteEvolved, StepKind, Verify, SimulationNode.Move;
    var t, idle := n.timers[k], Unqueue(n, k);
    var r := Find(n.store.runs, t.id);
    if r.Some? && r.value.phase.Running? {
      var next := Evolve(h, r.value, Running, StepKind(t.index + 2), clock.a, clock.b);
      EvolveUnder(h, r.value, Running, StepKind(t.index + 2), clock.a, clock.b, g);
      WriteNextUnder(h, idle, next, None, clock.first, g) by { hide Under; }
      var w := WriteEvolved(h, idle, next, None, clock.first);
      if w.Done? { VerifyUnder(h, w.node, t.id, SimulationNode.Move(t.virtual, t.index, r.value.inputs), clock, g); }
      hide Under;
    }
  }

  lemma {:induction false} RecoverUnder(h: Hash, n: Node, rs: seq<Run>, marks: seq<Mark>, last: int, g: set<Grant>)
    requires AllUnder(n, g) && forall r :: r in rs ==> Under(r, g)
    ensures AllUnder(Recover(h, n, rs, marks, last), g)
    decreases |rs|
  {
    hide Evolve, WriteEvolved, RestartReason, RestartedKind;
    if rs != [] {
      if !Interrupted(rs[0].phase) {
        RecoverUnder(h, n, rs[1..], marks, last, g);
      } else {
        var mark := FirstMark(marks, last);
        assert Under(rs[0], g);
        EvolveUnder(h, Unknown(rs[0]), OutcomeUnknown, RestartedKind(), mark.u, mark.v, g);
        var next := Evolve(h, Unknown(rs[0]), OutcomeUnknown, RestartedKind(), mark.u, mark.v);
        WriteNextUnder(h, n, next, None, mark.fate, g) by { hide Under; }
        hide Under;
        var w := CloseRun(h, n, rs[0], mark);
        if w.Done? { RecoverUnder(h, w.node, rs[1..], OtherMarks(marks), last, g); }
      }
    }
  }

  lemma {:induction false} LoadUnder(h: Hash, n: Node, clock: Clock, g: set<Grant>)
    requires AllUnder(n, g)
    ensures AllUnder(Load(h, n, clock), g)
  {
    hide Under, Recover, Replay;
    ReplayUnder(h, n.log, g);
    RecoverUnder(h, Reloaded(h, n), Replay(h, n.log).runs, clock.marks, clock.d, g);
  }

  lemma {:induction false} NextUnder(h: Hash, site: Site, n: Node, e: Step, clock: Clock, g: set<Grant>)
    requires Inv(h, site, n) && SitePlain(site) && Ticks(n.time, clock) && AllUnder(n, g)
    ensures AllUnder(Next(h, site, n, e, clock), g + Granted(n, e, clock))
  {
    hide Inv, Ticks, Under, Prepare, Approve, Stop, Fire, Load, AnyOpen, Granted;
    match e {
      case DoPrepare(id, inputs, route, approval) => PrepareUnder(h, site, n, id, inputs, route, approval, clock, g);
      case DoApprove(_, _, _, _, _) => ApproveUnder(h, site, n, e, clock, g);
      case DoStop(id) => StopUnder(h, n, id, clock, g);
      case TimerFires(k, interrupted) => if k < |n.timers| { FireUnder(h, n, k, clock, interrupted, g); }
      case HostRestarts => LoadUnder(h, n.(timers := []), clock, g);
      case SessionReopens => LoadUnder(h, n, clock, g);
    }
    if !e.DoApprove? { MoreUnder(Next(h, site, n, e, clock), g, Granted(n, e, clock)); }
  }

  // ---------- whole histories ----------

  /** Move k granted x: it agreed with the waiting record stored then, in an open session. */
  ghost predicate GivenAt(h: Hash, site: Site, moves: seq<Move>, k: nat, x: Grant)
    requires k < |moves|
  {
    var n, e, clock := After(h, site, moves, k), moves[k].step, moves[k].clock;
    && n.open && x.at == clock.b
    && exists w :: w in n.store.runs && Agrees(w, e, clock) && w.inputs == x.inputs && w.runId == x.id
                   && w.approval == Approval(x.digest, x.expiresAt, None) && w.routeReceiptDigest == x.route
  }

  ghost predicate Given(h: Hash, site: Site, moves: seq<Move>, i: nat, x: Grant)
    requires i <= |moves|
  {
    exists k :: 0 <= k < i && GivenAt(h, site, moves, k, x)
  }

  lemma {:induction false} GrantedIsGiven(h: Hash, site: Site, moves: seq<Move>, k: nat, x: Grant)
    requires History(h, site, moves) && k < |moves|
    requires x in Granted(After(h, site, moves, k), moves[k].step, moves[k].clock)
    ensures GivenAt(h, site, moves, k, x)
  {
    hide History, After, Inv;
    var n := After(h, site, moves, k);
    ReachableInv(h, site, moves, k);
    var w :| w in n.store.runs && Agrees(w, moves[k].step, moves[k].clock)
             && x == GrantOf(Approved(w, moves[k].clock.b));
    InvGood(h, site, n, w);
    WaitingUnapproved(h, w, n.time);
  }

  lemma WaitingUnapproved(h: Hash, r: Run, time: int)
    requires Good(h, r, time) && r.phase.WaitingForApproval?
    ensures r.approval.approvedAt.None?
  {
  }

  lemma EmptyUnder(h: Hash, site: Site, moves: seq<Move>)
    ensures AllUnder(After(h, site, moves, 0), {})
  {
  }

  lemma {:induction false} StoredWasGranted(h: Hash, site: Site, moves: seq<Move>, i: nat) returns (g: set<Grant>)
    requires History(h, site, moves) && i <= |moves|
    ensures AllUnder(After(h, site, moves, i), g) && forall x :: x in g ==> Given(h, site, moves, i, x)
  {
    hide *;
    if i == 0 {
      g := {};
      EmptyUnder(h, site, moves);
    } else {
      var n, e, clock := After(h, site, moves, i - 1), moves[i - 1].step, moves[i - 1].clock;
      var f := StoredWasGranted(h, site, moves, i - 1);
      ReachableInv(h, site, moves, i - 1);
      OneStep(h, site, moves, i - 1);
      MoveParts(n, moves[i - 1]);
      NextUnder(h, site, n, e, clock, f);
      g := f + Granted(n, e, clock);
      forall x | x in g ensures Given(h, site, moves, i, x) {
        if x in f { GivenLater(h, site, moves, i - 1, x); } else { GrantedNow(h, site, moves, i - 1, x); }
      }
    }
  }

  lemma GivenLater(h: Hash, site: Site, moves: seq<Move>, i: nat, x: Grant)
    requires i < |moves| && Given(h, site, moves, i, x)
    ensures Given(h, site, moves, i + 1, x)
  {
    hide GivenAt;
  }

  lemma {:induction false} GrantedNow(h: Hash, site: Site, moves: seq<Move>, i: nat, x: Grant)
    requires History(h, site, moves) && i < |moves|
    requires x in Granted(After(h, site, moves, i), moves[i].step, moves[i].clock)
    ensures Given(h, site, moves, i + 1, x)
  {
    hide GivenAt, History, After, Granted;
    GrantedIsGiven(h, site, moves, i, x);
  }

  /**
   In every reachable state, a run that is running or verified was approved: an earlier request said
   yes and named the digest of the record stored then and of its approval, in time, for its route,
   and that record asked for these inputs under this very approval.
   */
  lemma {:induction false} RunningWasApproved(h: Hash, site: Site, moves: seq<Move>, i: nat, r: Run)
    requires History(h, site, moves) && i <= |moves| && r in After(h, site, moves, i).store.runs
    requires r.phase == Running || r.phase == VerifiedSuccess
    ensures r.approval.approvedAt.Some?
    ensures exists k :: 0 <= k < i && GivenAt(h, site, moves, k, GrantOf(r))
  {
    hide History, After, Inv, GivenAt;
    ReachableInv(h, site, moves, i);
    InvGood(h, site, After(h, site, moves, i), r);
    assert r.approval.approvedAt.Some? by { GoodApproved(h, r, After(h, site, moves, i).time); }
    var g := StoredWasGranted(h, site, moves, i);
    assert Under(r, g);
    assert Given(h, site, moves, i, GrantOf(r));
  }

  lemma GoodApproved(h: Hash, r: Run, time: int)
    requires Good(h, r, time) && (r.phase.Running? || r.phase.VerifiedSuccess?)
    ensures r.approval.approvedAt.Some?
  {
    hide Trip, PlainRecord, Sealed;
  }
}
