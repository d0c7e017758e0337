/**
 The simulated Node in its own form: maps, a log file and queued timers updated in place. Each
 public method is one step of `SimulationNode`, ends in the state that step gives, and keeps
 the invariant proved of every reachable state.
 */
module SimulationHosts {
  import opened Options
  import opened Texts
  import opened JsonText
  import opened Digests
  import opened RunContract
  import opened SimulationNode
  import opened SimulationRecords
  import opened SimulationStore
  import opened SimulationSafety
  import SimulationRuns
  import SimulationApproval

  class SimulationHost {
    const h: Hash
    const site: Site
    var runs: seq<Run>
    var runSnapshots: map<Text, Json>
    var snapshots: map<Text, Json>
    var log: seq<Line>
    var timers: seq<Timer>
    var time: int
    var open: bool
    var torn: bool
    var cut: bool
    ghost var unlogged: set<Text>

    ghost function Model(): Node
      reads this
    {
      Node(Store(runs, runSnapshots, snapshots), log, timers, time, open, torn, cut, unlogged)
    }

    /** The surroundings behave, and the state is one a run can reach. */
    ghost predicate Valid()
      reads this
    {
      Guards(h, site) && ShortHash(h) && SitePlain(site) && Inv(h, site, Model())
    }

    constructor (h: Hash, site: Site)
      requires Guards(h, site) && ShortHash(h) && SitePlain(site)
      ensures this.h == h && this.site == site && Model() == SimulationRuns.Empty && Valid()
    {
      this.h, this.site := h, site;
      runs, runSnapshots, snapshots, log, timers, time := [], map[], map[], [], [], 0;
      open, torn, cut, unlogged := true, false, false, {};
      new;
      hide Inv, Guards, ShortHash;
      SimulationRuns.EmptyInv(h, site);
    }

    method SetRun(r: Run)
      modifies `runs
      ensures runs == Put(old(runs), r)
    {
      var rs, i := runs, 0;
      assert rs[0..] == rs;
      while i < |rs| && rs[i].runId != r.runId
        invariant 0 <= i <= |rs|
        invariant Put(rs, r) == rs[..i] + Put(rs[i..], r)
      {
        PutSkips(rs, i, r);
        i := i + 1;
      }
      runs := if i < |rs| then rs[..i] + [r] + rs[i + 1..] else rs + [r];
      if i < |rs| { assert rs[i..][1..] == rs[i + 1..]; } else { assert rs[i..] == [] && rs[..i] == rs; }
    }

    method SetSnapshot(v: Json)
      modifies `snapshots
      ensures snapshots == WithSnapshot(h, old(snapshots), Some(v))
    {
      var digest := Digest(h, v);
      if digest.Some? { snapshots := snapshots[digest.value := v]; }
    }

    /**
     The only place that stores a run. A record the contract rejects is thrown out before anything
     changes; the append comes last, and when it throws the maps keep what they were given.
     */
    method WriteRun(run: Run, preparation: Option<Json>, evidence: Option<Json>, fate: Append) returns (done: bool)
      modifies `runs, `runSnapshots, `snapshots, `log, `torn, `cut, `unlogged
      ensures Model() == Or(old(Model()), Write(h, old(Model()), run, preparation, evidence, fate))
      ensures done <==> Write(h, old(Model()), run, preparation, evidence, fate).Done?
    {
      hide Checks, Record;
      if !Checks(h, run) { return false; }
      StoreRun(Line(run, preparation, evidence));
      var line := Line(run, if run.runId in runSnapshots then Some(runSnapshots[run.runId]) else None, evidence);
      done := AppendLine(line, fate);
      ghost var before := old(Model());
      unlogged := if InFile(fate) then before.unlogged - {run.runId} else before.unlogged + {run.runId};
    }

    method StoreRun(l: Line)
      modifies `runs, `runSnapshots, `snapshots
      ensures Store(runs, runSnapshots, snapshots) == Record(h, old(Store(runs, runSnapshots, snapshots)), l)
    {
      hide WithSnapshot, Put;
      NoSnapshot(h, snapshots);
      SetRun(l.run);
      if l.preparation.Some? {
        runSnapshots := runSnapshots[l.run.runId := l.preparation.value];
        SetSnapshot(l.preparation.value);
      }
      NoSnapshot(h, snapshots);
      if l.evidence.Some? { SetSnapshot(l.evidence.value); }
    }

    method AppendLine(line: Line, fate: Append) returns (done: bool)
      modifies `log, `torn, `cut
      ensures log == if InFile(fate) then old(log) + [line] else old(log)
      ensures FileEnds(old(Model()), Model(), fate) && done == fate.Appended?
    {
      if InFile(fate) { log := log + [line]; }
      if fate.Torn? || (cut && !fate.Lost?) { torn := true; }
      cut := fate.Cut? || (fate.Lost? && cut);
      done := fate.Appended?;
    }

    method WriteNext(next: Option<Run>, evidence: Option<Json>, fate: Append) returns (done: bool)
      modifies `runs, `runSnapshots, `snapshots, `log, `torn, `cut, `unlogged
      ensures Model() == Or(old(Model()), WriteEvolved(h, old(Model()), next, evidence, fate))
      ensures done <==> WriteEvolved(h, old(Model()), next, evidence, fate).Done?
    {
      hide Write;
      if next.None? { return false; }
      done := WriteRun(next.value, None, evidence, fate);
    }

    method HasOpenRun() returns (found: bool)
      ensures found <==> AnyOpen(runs)
    {
      for i := 0 to |runs|
        invariant forall j :: 0 <= j < i ==> Terminal(runs[j].phase)
      {
        if !Terminal(runs[i].phase) { return true; }
      }
      found := false;
    }

    method PrepareRun(id: Text, inputs: Json, route: Text, approval: Text, clock: Clock)
      modifies `runs, `runSnapshots, `snapshots, `log, `torn, `cut, `unlogged
      ensures Model() == Or(old(Model()), Prepare(h, site, old(Model()), id, inputs, route, approval, clock))
    {
      hide Preparation, NewRun, SealRun, Digest, Write;
      if !open { return; }
      var found := HasOpenRun();
      if found { return; }
      var snapshot := Digest(h, Preparation(site));
      if snapshot.None? { return; }
      var run := SealRun(h, NewRun(site, id, inputs, route, snapshot.value, approval, clock));
      if run.None? { return; }
      var _ := WriteRun(run.value, Some(Preparation(site)), None, clock.first);
    }

    /** A prepared run waits for its approval; no other run was open. */
    method DoPrepare(id: Text, inputs: Json, route: Text, approval: Text, clock: Clock)
      requires Valid() && Ticks(time, clock)
               && SimulationRuns.Sensible(Model(), Step.DoPrepare(id, inputs, route, approval))
      modifies this
      ensures Model() == Next(h, site, old(Model()), Step.DoPrepare(id, inputs, route, approval), clock) && Valid()
      ensures Advances(old(runs), runs) && (OneOpen(old(runs)) ==> OneOpen(runs))
      ensures Find(runs, id).Some? <==> old(open) && !AnyOpen(old(runs)) && JsonObject(inputs)
    {
      hide Prepare, Inv, Guards, ShortHash, Ticks, SimulationRuns.Sensible, Advances, OneOpen, JsonObject, AnyOpen;
      SimulationRuns.NextKeeps(h, site, Model(), Step.DoPrepare(id, inputs, route, approval), clock);
      SimulationRuns.PreparedIff(h, site, Model(), id, inputs, route, approval, clock);
      PrepareRun(id, inputs, route, approval, clock);
      time := clock.d;
    }

    method ApproveRun(id: Text, runDigest: Text, approvalDigest: Text, approved: bool, current: Option<Text>,
            clock: Clock)
      modifies `runs, `runSnapshots, `snapshots, `log, `timers, `torn, `cut, `unlogged
      ensures Model() == Or(old(Model()),
                            Approve(h, old(Model()), id, runDigest, approvalDigest, approved, current, clock))
    {
      hide Evolve, WriteEvolved, Source, StepKind;
      if !open { return; }
      var r := Find(runs, id);
      if r.None? || !MayApprove(r.value, runDigest, approvalDigest, approved, current, clock.a) { return; }
      var done := WriteNext(Evolve(h, Approved(r.value, clock.b), Running, StepKind(1), clock.c, clock.d), None,
              clock.first);
      if !done { return; }
      var start := Source(r.value.inputs);
      timers := timers + [Timer(id, 0, Virtual(start, start, false))];
    }

    method DoApprove(id: Text, runDigest: Text, approvalDigest: Text, approved: bool, current: Option<Text>,
            clock: Clock)
      requires Valid() && Ticks(time, clock)
      modifies this
      ensures Model() == Next(h, site, old(Model()), Step.DoApprove(id, runDigest, approvalDigest, approved, current),
                              clock)
      ensures Valid()
      ensures Advances(old(runs), runs) && (OneOpen(old(runs)) ==> OneOpen(runs))
      ensures SimulationApproval.Answered(h, old(Model()), Model(),
                Step.DoApprove(id, runDigest, approvalDigest, approved, current), clock)
    {
      ghost var step := Step.DoApprove(id, runDigest, approvalDigest, approved, current);
      hide SimulationApproval.Answered;
      hide Approve, Inv, Guards, ShortHash, Ticks, Advances, OneOpen, Find, AnyOpen, Replay;
      hide Prepare, Stop, Fire, Restart, Reopen;
      SimulationApproval.ApprovedIff(h, site, Model(), step, clock);
      SimulationRuns.NextKeeps(h, site, Model(), step, clock);
      ApproveRun(id, runDigest, approvalDigest, approved, current, clock);
      time := clock.d;
    }

    method StopRun(id: Text, clock: Clock)
      modifies `runs, `runSnapshots, `snapshots, `log, `torn, `cut, `unlogged
      ensures Model() == Or(old(Model()), Stop(h, old(Model()), id, clock))
    {
      hide Evolve, WriteEvolved, StoppedKind, Stopped;
      if !open { return; }
      var r := Find(runs, id);
      if r.None? || Terminal(r.value.phase) { return; }
      var _ := WriteNext(Evolve(h, Stopped(r.value), Cancelled, StoppedKind(), clock.a, clock.b), None, clock.first);
    }

    /** A known run is terminal after Stop, whatever became of the append. */
    method DoStop(id: Text, clock: Clock)
      requires Valid() && Ticks(time, clock)
      modifies this
      ensures Model() == Next(h, site, old(Model()), Step.DoStop(id), clock) && Valid()
      ensures Advances(old(runs), runs) && (OneOpen(old(runs)) ==> OneOpen(runs))
      ensures old(open) && Find(old(runs), id).Some? ==> Find(runs, id).Some? && Terminal(Find(runs, id).value.phase)
    {
      hide Stop, Inv, Guards, ShortHash, Ticks, Advances, OneOpen, Terminal, Find, AnyOpen, Replay;
      hide Prepare, Approve, Fire, Restart, Reopen;
      SimulationRuns.NextKeeps(h, site, Model(), Step.DoStop(id), clock);
      SimulationRuns.StopCloses(h, site, Model(), id, clock);
      StopRun(id, clock);
      time := clock.d;
    }

    method VerifyRun(id: Text, v: Virtual, clock: Clock)
      modifies `runs, `runSnapshots, `snapshots, `log, `torn, `cut, `unlogged
      ensures Model() == Or(old(Model()), Verify(h, old(Model()), id, v, clock))
    {
      hide Evolve, WriteEvolved, Evidence, Digest, Verified, CheckReason, StepKind;
      var r := Find(runs, id);
      if r.None? { return; }
      var verified := Verified(v, r.value.inputs);
      var evidence := Evidence(verified, v);
      var phase := if verified then VerifiedSuccess else Failed;
      var digest := Digest(h, evidence);
      if digest.None? { return; }
      var x := Ended(r.value, phase, CheckReason(verified), digest);
      var _ := WriteNext(Evolve(h, x, phase, StepKind(5), clock.c, clock.d), Some(evidence), clock.second);
    }

    /** What a due timer does; `interrupted` ends the process between the third step's two writes. */
    method FireTimer(k: nat, interrupted: bool, clock: Clock)
      requires k < |timers|
      modifies `runs, `runSnapshots, `snapshots, `log, `timers, `open, `torn, `cut, `unlogged
      ensures Model() == Fire(h, old(Model()), k, clock, interrupted)
    {
      hide Evolve, SimulationNode.Move, Verify, WriteEvolved, T, StepKind;
      var t := timers[k];
      timers := timers[..k] + timers[k + 1..];
      var r := Find(runs, t.id);
      if r.None? || !r.value.phase.Running? { return; }
      var next := Evolve(h, r.value, Running, StepKind(t.index + 2), clock.a, clock.b);
      var done := WriteNext(next, None, clock.first);
      if !done { return; }
      var v := SimulationNode.Move(t.virtual, t.index, r.value.inputs);
      if t.index < 2 {
        timers := timers + [Timer(t.id, t.index + 1, v)];
      } else if interrupted {
        open, timers := false, [];
      } else {
        VerifyRun(t.id, v, clock);
      }
    }

    method TimerFires(k: nat, interrupted: bool, clock: Clock)
      requires Valid() && Ticks(time, clock)
      modifies this
      ensures Model() == Next(h, site, old(Model()), Step.TimerFires(k, interrupted), clock) && Valid()
      ensures Advances(old(runs), runs) && (OneOpen(old(runs)) ==> OneOpen(runs))
    {
      hide Fire, Inv, Guards, ShortHash, Ticks, Advances, OneOpen;
      SimulationRuns.NextKeeps(h, site, Model(), Step.TimerFires(k, interrupted), clock);
      if k < |timers| { FireTimer(k, interrupted, clock); }
      time := clock.d;
    }

    /** Reading the log back line by line, then closing what it shows active. */
    method LoadSession(clock: Clock)
      modifies `runs, `runSnapshots, `snapshots, `log, `open, `torn, `cut, `unlogged
      ensures Model() == Load(h, old(Model()), clock)
    {
      hide Record, Recover;
      ReadLog();
      open, unlogged := true, {};
      assert Model() == Reloaded(h, old(Model()));
      CloseActive(clock.marks, clock.d);
    }

    method ReadLog()
      modifies `runs, `runSnapshots, `snapshots
      ensures Store(runs, runSnapshots, snapshots) == Replay(h, log)
    {
      hide Record;
      var entries := log;
      runs, runSnapshots, snapshots := [], map[], map[];
      for i := 0 to |entries|
        invariant Store(runs, runSnapshots, snapshots) == Replay(h, entries[..i])
      {
        assert entries[..i + 1][..i] == entries[..i];
        StoreRun(entries[i]);
      }
      assert entries[..|entries|] == entries;
    }

    /** Closing what memory shows active, run by run, until an append throws. */
    method CloseActive(first: seq<Mark>, last: int)
      modifies `runs, `runSnapshots, `snapshots, `log, `open, `torn, `cut, `unlogged
      ensures Model() == Recover(h, old(Model()), old(runs), first, last)
    {
      hide CloseRun, Interrupted, Put;
      ghost var start := Model();
      var saved, marks, j := runs, first, 0;
      assert saved[0..] == saved;
      while j < |saved|
        invariant 0 <= j <= |saved|
        invariant Recover(h, start, saved, first, last) == Recover(h, Model(), saved[j..], marks, last)
      {
        assert saved[j..][0] == saved[j] && saved[j..][1..] == saved[j + 1..];
        if Interrupted(saved[j].phase) {
          var done := Close(saved[j], FirstMark(marks, last));
          if !done {
            open := false;
            return;
          }
          marks := OtherMarks(marks);
        }
        j := j + 1;
      }
    }

    method Close(r: Run, mark: Mark) returns (done: bool)
      modifies `runs, `runSnapshots, `snapshots, `log, `torn, `cut, `unlogged
      ensures Model() == Or(old(Model()), CloseRun(h, old(Model()), r, mark))
      ensures done <==> CloseRun(h, old(Model()), r, mark).Done?
    {
      hide Evolve, WriteEvolved, Unknown, RestartedKind, T;
      done := WriteNext(Evolve(h, Unknown(r), OutcomeUnknown, RestartedKind(), mark.u, mark.v), None, mark.fate);
    }

    /**
     After a restart that loads, no run is active, nothing is missing from the log, and what was
     logged is served or extended.
     */
    method HostRestarts(clock: Clock)
      requires Valid() && Ticks(time, clock)
      modifies this
      ensures Model() == Next(h, site, old(Model()), Step.HostRestarts, clock) && Valid()
      ensures SimulationRuns.LoadedFrom(h, site, old(Model()), Model(), clock) && timers == []
    {
      hide Load, Inv, Guards, ShortHash, Ticks, SimulationRuns.LoadedFrom;
      SimulationRuns.NextKeeps(h, site, Model(), Step.HostRestarts, clock);
      SimulationRuns.LoadsKeep(h, site, Model(), Step.HostRestarts, clock);
      timers := [];
      if torn { open := false; } else { LoadSession(clock); }
      time := clock.d;
    }

    /** Opening the conversation again is refused while a run is open; a torn file is found before anything changes. */
    method SessionReopens(clock: Clock)
      requires Valid() && Ticks(time, clock)
      modifies this
      ensures Model() == Next(h, site, old(Model()), Step.SessionReopens, clock) && Valid()
      ensures AnyOpen(old(runs)) || old(torn) || !old(open) ==> Model() == old(Model()).(time := clock.d)
      ensures !(AnyOpen(old(runs)) || old(torn) || !old(open)) ==>
                SimulationRuns.LoadedFrom(h, site, old(Model()), Model(), clock)
    {
      hide Load, Inv, Guards, ShortHash, Ticks, AnyOpen, SimulationRuns.LoadedFrom;
      SimulationRuns.NextKeeps(h, site, Model(), Step.SessionReopens, clock);
      if SimulationRuns.Loads(Model(), Step.SessionReopens) {
        SimulationRuns.LoadsKeep(h, site, Model(), Step.SessionReopens, clock);
      }
      var found := HasOpenRun();
      if open && !found && !torn { LoadSession(clock); }
      time := clock.d;
    }
  }

  lemma NoSnapshot(h: Hash, m: map<Text, Json>)
    ensures WithSnapshot(h, m, None) == m
  {
  }

  lemma {:induction false} PutSkips(rs: seq<Run>, i: nat, r: Run)
    requires i < |rs| && rs[i].runId != r.runId && Put(rs, r) == rs[..i] + Put(rs[i..], r)
    ensures Put(rs, r) == rs[..i + 1] + Put(rs[i + 1..], r)
  {
    assert rs[i..][1..] == rs[i + 1..];
    assert rs[..i + 1] == rs[..i] + [rs[i]];
  }
}
