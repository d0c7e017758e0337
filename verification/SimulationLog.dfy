/**
 When the log of the simulated Node is exactly its memory: the order of the runs and the
 evidence included, whatever appends failed before.
 */
module SimulationLogs {
  import opened Options
  import opened Texts
  import opened Digests
  import opened RunContract
  import opened SimulationNode

  function Ids(rs: seq<Run>): (ids: seq<Text>)
    ensures |ids| == |rs| && forall i :: 0 <= i < |rs| ==> ids[i] == rs[i].runId
  {
    seq(|rs|, i requires 0 <= i < |rs| => rs[i].runId)
  }

  /** The ids that name one of the runs, in their order. */
  function Only(ids: seq<Text>, rs: seq<Run>): seq<Text> {
    if ids == [] then []
    else Only(ids[..|ids| - 1], rs) + (if Find(rs, ids[|ids| - 1]).Some? then [ids[|ids| - 1]] else [])
  }

  /** The log lists its runs in the order of memory; only the newest run may be open and not logged at all. */
  ghost predicate Ordered(held: seq<Run>, logged: seq<Run>) {
    && Ids(logged) == Only(Ids(held), logged)
    && forall i :: 0 <= i < |held| - 1 && !Terminal(held[i].phase) ==> Find(logged, held[i].runId).Some?
  }

  ghost predicate OwnPreparations(s: Store) {
    forall id :: id in s.preparations ==> Find(s.runs, id).Some?
  }

  /** No final check of a run is missing from the log. */
  ghost predicate ChecksLogged(held: seq<Run>, unlogged: set<Text>) {
    forall r :: r in held && r.runId in unlogged ==> !r.phase.VerifiedSuccess?
  }

  ghost predicate SameEvidence(h: Hash, site: Site, held: Store, logged: Store, unlogged: set<Text>) {
    ChecksLogged(held.runs, unlogged) ==>
      held.snapshots == if held.runs == [] then logged.snapshots
                        else WithSnapshot(h, logged.snapshots, Some(Preparation(site)))
  }

  ghost predicate Aligned(h: Hash, site: Site, held: Store, logged: Store, unlogged: set<Text>) {
    && Ordered(held.runs, logged.runs) && OwnPreparations(held) && OwnPreparations(logged)
    && SameEvidence(h, site, held, logged, unlogged)
  }

  // ---------- finding a run ----------

  lemma {:induction false} PutFinds(rs: seq<Run>, r: Run, id: Text)
    ensures Find(Put(rs, r), id) == if id == r.runId then Some(r) else Find(rs, id)
  {
    if rs != [] {
      PutFinds(rs[1..], r, id);
      if rs[0].runId == r.runId {
        assert ([r] + rs[1..])[1..] == rs[1..];
      } else {
        assert ([rs[0]] + Put(rs[1..], r))[1..] == Put(rs[1..], r);
      }
    }
  }

  /** A known run is replaced where it stands, a new one comes last. */
  lemma {:induction false} PutPlaces(rs: seq<Run>, r: Run)
    ensures Find(rs, r.runId).None? ==> Put(rs, r) == rs + [r]
    ensures Find(rs, r.runId).Some? ==>
              |Put(rs, r)| == |rs| && forall i :: 0 <= i < |rs| ==>
                Put(rs, r)[i].runId == rs[i].runId && (rs[i].runId != r.runId ==> Put(rs, r)[i] == rs[i])
  {
    if rs != [] && rs[0].runId != r.runId {
      PutPlaces(rs[1..], r);
      assert forall i :: 0 <= i < |rs| ==> rs[i] == if i == 0 then rs[0] else rs[1..][i - 1];
    }
  }

  lemma {:induction false} PutIds(rs: seq<Run>, r: Run)
    ensures Ids(Put(rs, r)) == if Find(rs, r.runId).Some? then Ids(rs) else Ids(rs) + [r.runId]
  {
    hide Put, Find;
    PutPlaces(rs, r);
  }

  // ---------- the order ----------

  lemma {:induction false} OnlyAgrees(ids: seq<Text>, a: seq<Run>, b: seq<Run>)
    requires forall i :: 0 <= i < |ids| ==> (Find(a, ids[i]).Some? <==> Find(b, ids[i]).Some?)
    ensures Only(ids, a) == Only(ids, b)
  {
    if ids != [] { OnlyAgrees(ids[..|ids| - 1], a, b); }
  }

  lemma OnlyLast(ids: seq<Text>, id: Text, rs: seq<Run>)
    ensures Only(ids + [id], rs) == Only(ids, rs) + if Find(rs, id).Some? then [id] else []
  {
    assert (ids + [id])[..|ids|] == ids;
  }

  lemma {:induction false} OnlyAll(ids: seq<Text>, rs: seq<Run>)
    requires forall i :: 0 <= i < |ids| ==> Find(rs, ids[i]).Some?
    ensures Only(ids, rs) == ids
  {
    if ids != [] {
      OnlyAll(ids[..|ids| - 1], rs);
      assert ids == ids[..|ids| - 1] + [ids[|ids| - 1]];
    }
  }

  lemma {:induction false} PutOnly(ids: seq<Text>, rs: seq<Run>, e: Run)
    requires e.runId !in ids || Find(rs, e.runId).Some?
    ensures Only(ids, Put(rs, e)) == Only(ids, rs)
  {
    forall i | 0 <= i < |ids| ensures Find(rs, ids[i]).Some? <==> Find(Put(rs, e), ids[i]).Some? {
      PutFinds(rs, e, ids[i]);
    }
    OnlyAgrees(ids, rs, Put(rs, e));
  }

  lemma {:induction false} LastId(held: seq<Run>, logged: seq<Run>, id: Text)
    requires Distinct(held) && Ordered(held, logged) && Find(logged, id).None?
    requires Find(held, id).Some? && !Terminal(Find(held, id).value.phase)
    ensures held != [] && Ids(held) == Ids(held)[..|held| - 1] + [id] && id !in Ids(held)[..|held| - 1]
  {
    hide Only, Terminal;
    var i :| 0 <= i < |held| && held[i] == Find(held, id).value;
    assert i == |held| - 1;
  }

  /** The runs of both after one write, its line in the file or not. */
  lemma {:induction false} PutOrdered(held: seq<Run>, logged: seq<Run>, e: Run, kept: bool)
    requires Distinct(held) && Ordered(held, logged)
    requires Find(logged, e.runId).Some? ==> Find(held, e.runId).Some?
    requires match Find(held, e.runId) case Some(r) => !Terminal(r.phase) case None => !AnyOpen(held)
    ensures Ordered(Put(held, e), if kept then Put(logged, e) else logged)
  {
    hide Only, Put, Terminal, Find;
    var more := if kept then Put(logged, e) else logged;
    OrderKept(held, logged, e, kept);
    PutPlaces(held, e);
    PutFinds(held, e, e.runId);
    forall i | 0 <= i < |Put(held, e)| - 1 && !Terminal(Put(held, e)[i].phase)
      ensures Find(more, Put(held, e)[i].runId).Some?
    {
      PutFinds(logged, e, held[i].runId);
      if held[i].runId == e.runId { FindIs(held, held[i]); }
    }
  }

  lemma {:induction false} OrderKept(held: seq<Run>, logged: seq<Run>, e: Run, kept: bool)
    requires Distinct(held) && Ordered(held, logged)
    requires Find(logged, e.runId).Some? ==> Find(held, e.runId).Some?
    requires match Find(held, e.runId) case Some(r) => !Terminal(r.phase) case None => !AnyOpen(held)
    ensures var more := if kept then Put(logged, e) else logged; Ids(more) == Only(Ids(Put(held, e)), more)
  {
    hide Only, Put, Terminal, Ids;
    if Find(held, e.runId).None? {
      NewIdLast(held, logged, e);
      if !kept { NewIdUnlogged(held, logged, e); }
    } else {
      PutIds(held, e);
      if kept { KnownIdLogged(held, logged, e); }
    }
  }

  /** A new run that is logged at once. */
  lemma {:induction false} NewIdLast(held: seq<Run>, logged: seq<Run>, e: Run)
    requires Ids(logged) == Only(Ids(held), logged) && Find(held, e.runId).None? && Find(logged, e.runId).None?
    ensures Ids(Put(logged, e)) == Only(Ids(Put(held, e)), Put(logged, e))
  {
    hide Only, Put;
    PutIds(held, e);
    PutIds(logged, e);
    assert e.runId !in Ids(held);
    OnlyLast(Ids(held), e.runId, Put(logged, e));
    PutFinds(logged, e, e.runId);
    PutOnly(Ids(held), logged, e);
  }

  lemma {:induction false} NewIdUnlogged(held: seq<Run>, logged: seq<Run>, e: Run)
    requires Ids(logged) == Only(Ids(held), logged) && Find(held, e.runId).None? && Find(logged, e.runId).None?
    ensures Ids(logged) == Only(Ids(Put(held, e)), logged)
  {
    hide Only, Put;
    PutIds(held, e);
    OnlyLast(Ids(held), e.runId, logged);
  }

  /** A known run that is logged, for the first time or again. */
  lemma {:induction false} KnownIdLogged(held: seq<Run>, logged: seq<Run>, e: Run)
    requires Distinct(held) && Ordered(held, logged) && Find(held, e.runId).Some?
    requires !Terminal(Find(held, e.runId).value.phase)
    ensures Ids(Put(logged, e)) == Only(Ids(held), Put(logged, e))
  {
    hide Only, Put, Terminal;
    PutIds(logged, e);
    var ids, id := Ids(held), e.runId;
    if Find(logged, id).Some? {
      PutOnly(ids, logged, e);
    } else {
      PutFinds(logged, e, id);
      LastId(held, logged, id);
      hide Ordered, Find;
      var before := ids[..|held| - 1];
      OnlyLast(before, id, logged);
      OnlyLast(before, id, Put(logged, e));
      PutOnly(before, logged, e);
    }
  }

  // ---------- the evidence ----------

  lemma {:induction false} WriteKeepsEvidence(h: Hash, site: Site, held: Store, logged: Store, unlogged: set<Text>,
            l: Line, kept: bool)
    requires Distinct(held.runs) && SameEvidence(h, site, held, logged, unlogged)
    requires if Find(held.runs, l.run.runId).Some?
             then l.preparation.None? && !Terminal(Find(held.runs, l.run.runId).value.phase)
             else l.preparation == Some(Preparation(site))
    requires l.evidence.Some? ==> l.run.phase.VerifiedSuccess? && Find(held.runs, l.run.runId).Some?
    requires l.evidence.Some? ==> Digest(h, l.evidence.value) != Digest(h, Preparation(site))
    ensures SameEvidence(h, site, Record(h, held, l),
                         if kept then Record(h, logged, l.(preparation := Some(Preparation(site)))) else logged,
                         if kept then unlogged - {l.run.runId} else unlogged + {l.run.runId})
  {
    hide Preparation, Digest, Put, Find;
    PutPlaces(held.runs, l.run);
    PutFinds(held.runs, l.run, l.run.runId);
    var id, less := l.run.runId, if kept then unlogged - {l.run.runId} else unlogged + {l.run.runId};
    var m := Record(h, held, l);
    if ChecksLogged(m.runs, less) {
      forall r | r in held.runs && r.runId in unlogged ensures !r.phase.VerifiedSuccess? {
        if r.runId == id { FindIs(held.runs, r); } else { assert r in m.runs; }
      }
      assert l.evidence.Some? ==> kept by { assert l.run in m.runs; }
    }
  }

  lemma {:induction false} RecordOwns(h: Hash, s: Store, l: Line)
    requires OwnPreparations(s)
    ensures OwnPreparations(Record(h, s, l))
  {
    hide Put, Find, WithSnapshot;
    forall id | id in Record(h, s, l).preparations ensures Find(Put(s.runs, l.run), id).Some? {
      PutFinds(s.runs, l.run, id);
    }
  }

  /** One write keeps memory and log aligned. */
  lemma {:induction false} WriteAligned(h: Hash, site: Site, held: Store, logged: Store, unlogged: set<Text>, l: Line,
            kept: bool)
    requires Distinct(held.runs) && Aligned(h, site, held, logged, unlogged)
    requires Find(logged.runs, l.run.runId).Some? ==> Find(held.runs, l.run.runId).Some?
    requires match Find(held.runs, l.run.runId)
             case Some(r) => l.preparation.None? && !Terminal(r.phase)
             case None => l.preparation == Some(Preparation(site)) && !AnyOpen(held.runs)
    requires l.evidence.Some? ==> l.run.phase.VerifiedSuccess? && Find(held.runs, l.run.runId).Some?
    requires l.evidence.Some? ==> Digest(h, l.evidence.value) != Digest(h, Preparation(site))
    ensures Aligned(h, site, Record(h, held, l),
                    if kept then Record(h, logged, l.(preparation := Some(Preparation(site)))) else logged,
                    if kept then unlogged - {l.run.runId} else unlogged + {l.run.runId})
  {
    hide Preparation, Digest, Put, Find, Ordered, SameEvidence, OwnPreparations, Terminal, AnyOpen, Distinct;
    PutOrdered(held.runs, logged.runs, l.run, kept);
    WriteKeepsEvidence(h, site, held, logged, unlogged, l, kept);
    RecordOwns(h, held, l);
    RecordOwns(h, logged, l.(preparation := Some(Preparation(site))));
  }

  /** Nothing is missing right after the log was replayed. */
  lemma {:induction false} AlignedSelf(h: Hash, site: Site, s: Store)
    requires OwnPreparations(s) && Distinct(s.runs)
    requires s.runs != [] ==> WithSnapshot(h, s.snapshots, Some(Preparation(site))) == s.snapshots
    ensures Aligned(h, site, s, s, {})
  {
    hide Preparation, Digest, WithSnapshot;
    forall i | 0 <= i < |s.runs| ensures Find(s.runs, s.runs[i].runId).Some? { FindIs(s.runs, s.runs[i]); }
    OnlyAll(Ids(s.runs), s.runs);
  }

  // ---------- exactly memory ----------

  lemma {:induction false} SameRuns(held: seq<Run>, logged: seq<Run>)
    requires Distinct(held) && Distinct(logged) && Ordered(held, logged)
    requires forall id :: Find(held, id) == Find(logged, id)
    ensures held == logged
  {
    hide Terminal;
    forall i | 0 <= i < |held| ensures Find(logged, Ids(held)[i]).Some? { FindIs(held, held[i]); }
    OnlyAll(Ids(held), logged);
    forall i | 0 <= i < |held| ensures held[i] == logged[i] {
      assert Ids(held)[i] == Ids(logged)[i];
      FindIs(held, held[i]);
      FindIs(logged, logged[i]);
    }
  }
}
