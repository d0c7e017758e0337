/**
 What appends do to the log file of the simulated Node over whole histories: a line that does not
 parse ends the session for good, and a line that was cut before its newline is spoiled by the
 next append, which itself succeeds.
 */
module SimulationFiles {
  import opened Options
  import opened Texts
  import opened JsonText
  import opened Digests
  import opened RunContract
  import opened SimulationNode
  import opened SimulationStore
  import opened SimulationSafety
  import opened SimulationRuns

  // ---------- a torn line ----------

  lemma {:induction false} TornStays(h: Hash, site: Site, n: Node, e: Step, clock: Clock)
    requires n.torn
    ensures var m := Next(h, site, n, e, clock);
            m.torn && (!n.open ==> !m.open) && (e.HostRestarts? ==> !m.open)
  {
    hide Record, Checks, Evolve, SealRun, Digest, Preparation, NewRun, Approved, Stopped, Load, Evidence, StepKind,
         SimulationNode.Move, CheckReason, Verified, Source;
  }

  /** Once an append has left a torn line, no later restart ever loads the session again. */
  lemma {:induction false} TornNeverLoads(h: Hash, site: Site, moves: seq<Move>, i: nat, k: nat, j: nat)
    requires i <= k < j <= |moves| && After(h, site, moves, i).torn && moves[k].step.HostRestarts?
    ensures !After(h, site, moves, j).open
    decreases j
  {
    hide Next;
    TornAfter(h, site, moves, i, j - 1);
    TornStays(h, site, After(h, site, moves, j - 1), moves[j - 1].step, moves[j - 1].clock);
    if k < j - 1 { TornNeverLoads(h, site, moves, i, k, j - 1); }
  }

  lemma {:induction false} TornAfter(h: Hash, site: Site, moves: seq<Move>, i: nat, j: nat)
    requires i <= j <= |moves| && After(h, site, moves, i).torn
    ensures After(h, site, moves, j).torn
    decreases j
  {
    hide Next;
    if i < j {
      TornAfter(h, site, moves, i, j - 1);
      TornStays(h, site, After(h, site, moves, j - 1), moves[j - 1].step, moves[j - 1].clock);
    }
  }

  // ---------- a line without its newline ----------

  /** Every line of the file parses, and the last one has its newline. */
  predicate Intact(n: Node) { !n.torn && !n.cut }

  predicate Clean(fate: Append) { !fate.Cut? && !fate.Torn? }

  /** Every append of the step leaves whole lines only, whether or not it throws. */
  predicate AllClean(clock: Clock) {
    Clean(clock.first) && Clean(clock.second) && forall i :: 0 <= i < |clock.marks| ==> Clean(clock.marks[i].fate)
  }

  /**
   How the file changes: a torn one stays torn, one that was cut is torn or was not written to, and
   an intact one stays so when only whole lines are left in it.
   */
  predicate FileMoves(n: Node, m: Node, clean: bool) {
    && (n.torn ==> m.torn) && (n.cut ==> m.torn || (m.cut && m.log == n.log)) && (clean && Intact(n) ==> Intact(m))
  }

  lemma {:induction false} WriteMoves(h: Hash, n: Node, run: Run, preparation: Option<Json>, evidence: Option<Json>,
            fate: Append)
    ensures FileMoves(n, Or(n, Write(h, n, run, preparation, evidence, fate)), Clean(fate))
  {
    hide Record, Checks;
  }

  lemma {:induction false} EvolvedMoves(h: Hash, n: Node, next: Option<Run>, evidence: Option<Json>, fate: Append)
    ensures FileMoves(n, Or(n, WriteEvolved(h, n, next, evidence, fate)), Clean(fate))
  {
    hide Write, FileMoves;
    if next.Some? { WriteMoves(h, n, next.value, None, evidence, fate); } else { MovesSelf(n, Clean(fate)); }
  }

  lemma MovesSelf(n: Node, clean: bool)
    ensures FileMoves(n, n, clean)
  {
  }

  lemma {:induction false} RecoverMoves(h: Hash, n: Node, rs: seq<Run>, marks: seq<Mark>, last: int)
    ensures FileMoves(n, Recover(h, n, rs, marks, last),
                      forall i :: 0 <= i < |marks| ==> Clean(marks[i].fate))
    decreases |rs|
  {
    hide Evolve, WriteEvolved, Interrupted;
    if rs != [] {
      if !Interrupted(rs[0].phase) {
        RecoverMoves(h, n, rs[1..], marks, last);
      } else {
        var mark := FirstMark(marks, last);
        EvolvedMoves(h, n, Evolve(h, Unknown(rs[0]), OutcomeUnknown, RestartedKind(), mark.u, mark.v), None, mark.fate);
        var w := CloseRun(h, n, rs[0], mark);
        if w.Done? { RecoverMoves(h, w.node, rs[1..], OtherMarks(marks), last); }
      }
    }
  }

  lemma {:induction false} VerifyMoves(h: Hash, n: Node, id: Text, v: Virtual, clock: Clock)
    ensures FileMoves(n, Or(n, Verify(h, n, id, v, clock)), Clean(clock.second))
  {
    hide WriteEvolved, Evolve, Digest, Evidence, StepKind, CheckReason, Verified;
    var r := Find(n.store.runs, id);
    if r.Some? && Digest(h, Evidence(Verified(v, r.value.inputs), v)).Some? {
      var verified := Verified(v, r.value.inputs);
      var evidence := Evidence(verified, v);
      var phase := if verified then VerifiedSuccess else Failed;
      var x := Ended(r.value, phase, CheckReason(verified), Some(Digest(h, evidence).value));
      EvolvedMoves(h, n, Evolve(h, x, phase, StepKind(5), clock.c, clock.d), Some(evidence), clock.second);
    }
  }

  lemma {:induction false} FireMoves(h: Hash, n: Node, k: nat, clock: Clock, interrupted: bool)
    requires k < |n.timers|
    ensures FileMoves(n, Fire(h, n, k, clock, interrupted), Clean(clock.first) && Clean(clock.second))
  {
    hide WriteEvolved, Evolve, StepKind, SimulationNode.Move, Verify;
    var t := n.timers[k];
    var r := Find(n.store.runs, t.id);
    if r.Some? {
      var next := Evolve(h, r.value, Running, StepKind(t.index + 2), clock.a, clock.b);
      EvolvedMoves(h, Unqueue(n, k), next, None, clock.first);
      var w := WriteEvolved(h, Unqueue(n, k), next, None, clock.first);
      if w.Done? { VerifyMoves(h, w.node, t.id, SimulationNode.Move(t.virtual, t.index, r.value.inputs), clock); }
    }
  }

  lemma {:induction false} StepMoves(h: Hash, site: Site, n: Node, e: Step, clock: Clock)
    ensures FileMoves(n, Next(h, site, n, e, clock), AllClean(clock))
  {
    hide Record, Checks, Evolve, SealRun, Digest, Preparation, Replay, Fire, Recover, Approved, Stopped, NewRun;
    match e {
      case TimerFires(k, interrupted) => if k < |n.timers| { FireMoves(h, n, k, clock, interrupted); }
      case HostRestarts => RecoverMoves(h, Reloaded(h, n.(timers := [])), Replay(h, n.log).runs, clock.marks, clock.d);
      case SessionReopens => RecoverMoves(h, Reloaded(h, n), Replay(h, n.log).runs, clock.marks, clock.d);
      case _ =>
    }
  }

  lemma {:induction false} CutStays(h: Hash, site: Site, moves: seq<Move>, i: nat, j: nat)
    requires i <= j <= |moves| && After(h, site, moves, i).cut
    ensures var n, m := After(h, site, moves, i), After(h, site, moves, j); m.torn || (m.cut && m.log == n.log)
    decreases j
  {
    hide Next;
    if i < j {
      CutStays(h, site, moves, i, j - 1);
      StepMoves(h, site, After(h, site, moves, j - 1), moves[j - 1].step, moves[j - 1].clock);
    }
  }

  /**
   A line that was cut before its newline loads until another one is written: from then on, although
   that append succeeds, no restart ever loads the session again.
   */
  lemma {:induction false} CutThenNeverLoads(h: Hash, site: Site, moves: seq<Move>, i: nat, w: nat, k: nat, j: nat)
    requires i <= w <= k < j <= |moves| && After(h, site, moves, i).cut
    requires After(h, site, moves, w).log != After(h, site, moves, i).log && moves[k].step.HostRestarts?
    ensures !After(h, site, moves, j).open
  {
    hide After;
    CutStays(h, site, moves, i, w);
    TornNeverLoads(h, site, moves, w, k, j);
  }

  predicate CleanBetween(moves: seq<Move>, i: nat, j: nat)
    requires i <= j <= |moves|
  {
    forall k :: i <= k < j ==> AllClean(moves[k].clock)
  }

  lemma {:induction false} StaysIntact(h: Hash, site: Site, moves: seq<Move>, i: nat, j: nat)
    requires i <= j <= |moves| && Intact(After(h, site, moves, i)) && CleanBetween(moves, i, j)
    ensures Intact(After(h, site, moves, j))
    decreases j
  {
    hide Next, AllClean;
    if i < j {
      StaysIntact(h, site, moves, i, j - 1);
      StepMoves(h, site, After(h, site, moves, j - 1), moves[j - 1].step, moves[j - 1].clock);
    }
  }

  /**
   As long as appends leave whole lines, whether they throw or not, a restart loads the session
   exactly when none of the appends it makes itself throws.
   */
  lemma {:induction false} WholeLinesLoad(h: Hash, site: Site, moves: seq<Move>, i: nat)
    requires History(h, site, moves) && i < |moves| && CleanBetween(moves, 0, i) && moves[i].step.HostRestarts?
    ensures After(h, site, moves, i + 1).open
            <==> Whole(moves[i].clock.marks, Active(Logged(h, After(h, site, moves, i)).runs))
  {
    assert Intact(After(h, site, moves, 0));
    hide *;
    var n := After(h, site, moves, i);
    StaysIntact(h, site, moves, 0, i);
    OneStep(h, site, moves, i);
    MoveParts(n, moves[i]);
    ReachableInv(h, site, moves, i);
    LoadsAre(h, site, n, moves[i].clock);
  }

  lemma {:induction false} LoadsAre(h: Hash, site: Site, n: Node, clock: Clock)
    requires SitePlain(site) && Inv(h, site, n) && Ticks(n.time, clock) && Intact(n)
    ensures Next(h, site, n, HostRestarts, clock).open <==> Whole(clock.marks, Active(Logged(h, n).runs))
  {
    hide Inv, Ticks, Next, InvAt, Advances, OneOpen, AllLoaded, Whole, Active, Replay;
    LoadsKeep(h, site, n, HostRestarts, clock);
  }
}
