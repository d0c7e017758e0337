/**
 What memory and log of the simulated Node hold, how far the log may be behind, and what one
 write keeps, its append failing or not.
 */
module SimulationStore {
  import opened Options
  import opened Texts
  import opened JsonText
  import opened Digests
  import opened RunContract
  import opened RunDepth
  import opened SimulationNode
  import opened SimulationRecords
  import opened SimulationLogs
  import JsonOrder

  // ---------- evidence values ----------

  predicate Printed(t: Text) { |t| <= MAX_STRING && WellFormedText(t) }

  predicate SitePlain(site: Site) { Plain(site.configurationDigest) && Plain(site.implementationDigest) }

  predicate VirtualPlain(v: Virtual) { Printed(v.objectLocation) && Printed(v.armLocation) }

  lemma LiteralPrints(s: string, depth: nat)
    requires |s| <= 512 && depth <= DIGEST_DEPTH
    ensures Printable(Str(T(s)), depth, DIGEST_DEPTH)
  {
    LiteralWellFormed(s);
  }

  lemma ObservationPrints(verified: Json)
    requires verified.Null? || verified.Bool?
    ensures forall i :: 0 <= i < 4 ==> PrintableMember(Observation(verified)[i], 1, DIGEST_DEPTH)
    ensures forall i :: 0 <= i < 4 ==> PrintableMember(Observation(verified)[i], 2, DIGEST_DEPTH)
  {
    hide T, PrintableMember;
    var ms := Observation(verified);
    var evidence := ms[0].value;
    var checks := evidence.members[1].value;
    NamedPrintable("configuration", Bool(true), 3, DIGEST_DEPTH);
    NamedPrintable("sourcePresent", Bool(true), 3, DIGEST_DEPTH);
    NamedPrintable("destinationClear", Bool(true), 3, DIGEST_DEPTH);
    ThreePrintable(checks.members, 2, DIGEST_DEPTH);
    LiteralPrints("simulation", 2);
    NamedPrintable("mode", Str(T("simulation")), 2, DIGEST_DEPTH);
    NamedPrintable("readinessChecks", checks, 2, DIGEST_DEPTH);
    TwoPrintable(evidence.members, 1, DIGEST_DEPTH);
    assert Depth(evidence) <= 2 by { ShallowObservation(verified); }
    PrintableElsewhere(evidence, 1, DIGEST_DEPTH, 2, DIGEST_DEPTH);
    ObservationMember("evidence", evidence);
    ObservationMember("preconditionsMet", Bool(true));
    ObservationMember("verified", verified);
    ObservationMember("stopped", Bool(true));
  }

  lemma ObservationMember(name: string, v: Json)
    requires |name| <= MAX_KEY_LENGTH && Printable(v, 1, DIGEST_DEPTH) && Printable(v, 2, DIGEST_DEPTH)
    ensures PrintableMember(Pair(T(name), v), 1, DIGEST_DEPTH) && PrintableMember(Pair(T(name), v), 2, DIGEST_DEPTH)
  {
    NamedPrintable(name, v, 1, DIGEST_DEPTH);
    NamedPrintable(name, v, 2, DIGEST_DEPTH);
  }

  lemma ShallowObservation(verified: Json)
    ensures Depth(Observation(verified)[0].value) <= 2
  {
    var evidence := Observation(verified)[0].value;
    var checks := evidence.members[1].value;
    MembersWithin(checks.members, 0);
    MembersWithin(evidence.members, 1);
  }

  lemma TwoPrintable(ms: seq<Pair<Json>>, depth: nat, maximum: nat)
    requires |ms| == 2 && depth <= maximum
    requires PrintableMember(ms[0], depth + 1, maximum) && PrintableMember(ms[1], depth + 1, maximum)
    ensures Printable(Obj(ms), depth, maximum)
  {
  }

  lemma ObservationPrintable()
    ensures Printable(Obj(Observation(Null)), 1, DIGEST_DEPTH)
  {
    hide T, PrintableMember;
    ObservationPrints(Null);
    FourPrintable(Observation(Null), 1, DIGEST_DEPTH);
  }

  lemma PreparationPrints(h: Hash, site: Site)
    requires SitePlain(site)
    ensures Digest(h, Preparation(site)).Some?
  {
    hide T, PrintableMember, Observation;
    ObservationPrintable();
    var observation := Obj(Observation(Null));
    LiteralPrints("physicalsystems-run-snapshot-v1", 1);
    LiteralPrints("simulation", 1);
    NamedPrintable("contractVersion", Str(T("physicalsystems-run-snapshot-v1")), 1, DIGEST_DEPTH);
    NamedPrintable("configurationSnapshotDigest", Str(site.configurationDigest), 1, DIGEST_DEPTH);
    NamedPrintable("preparationObservation", observation, 1, DIGEST_DEPTH);
    NamedPrintable("mode", Str(T("simulation")), 1, DIGEST_DEPTH);
    FourPrintable(Preparation(site).members, 0, DIGEST_DEPTH);
  }

  lemma EvidencePrints(h: Hash, verified: bool, v: Virtual)
    requires VirtualPlain(v)
    ensures Digest(h, Evidence(verified, v)).Some?
  {
    hide T, PrintableMember;
    ObservationPrints(Bool(verified));
    var last := Evidence(verified, v).members[4];
    NamedPrintable("objectLocation", Str(v.objectLocation), 2, DIGEST_DEPTH);
    NamedPrintable("armLocation", Str(v.armLocation), 2, DIGEST_DEPTH);
    NamedPrintable("held", Bool(v.held), 2, DIGEST_DEPTH);
    ThreePrintable(last.value.members, 1, DIGEST_DEPTH);
    NamedPrintable("virtualState", last.value, 1, DIGEST_DEPTH);
    assert forall i :: 0 <= i < 4 ==> Evidence(verified, v).members[i] == Observation(Bool(verified))[i];
  }

  lemma NamesDiffer(a: string, b: string)
    requires |a| != |b| || (|a| > 0 && a[0] != b[0] && a[0] as int < 0x80 && b[0] as int < 0x80)
    ensures T(a) != T(b)
  {
    if |a| == |b| { assert T(a)[0] != T(b)[0]; }
  }

  lemma ObservationProper(verified: Json)
    requires verified.Null? || verified.Bool?
    ensures Proper(Obj(Observation(verified)))
  {
    hide T;
    var evidence := Observation(verified)[0].value;
    NamesDiffer("configuration", "sourcePresent");
    NamesDiffer("configuration", "destinationClear");
    NamesDiffer("sourcePresent", "destinationClear");
    assert Proper(evidence.members[1].value);
    NamesDiffer("mode", "readinessChecks");
    assert Proper(evidence);
    NamesDiffer("evidence", "preconditionsMet");
    NamesDiffer("evidence", "verified");
    NamesDiffer("evidence", "stopped");
    NamesDiffer("preconditionsMet", "verified");
    NamesDiffer("preconditionsMet", "stopped");
    NamesDiffer("verified", "stopped");
  }

  lemma PreparationProper(site: Site)
    ensures Proper(Preparation(site))
  {
    ObservationProper(Null);
    NamesDiffer("contractVersion", "configurationSnapshotDigest");
    NamesDiffer("contractVersion", "preparationObservation");
    NamesDiffer("contractVersion", "mode");
    NamesDiffer("configurationSnapshotDigest", "preparationObservation");
    NamesDiffer("configurationSnapshotDigest", "mode");
    NamesDiffer("preparationObservation", "mode");
  }

  lemma EvidenceProper(verified: bool, v: Virtual)
    ensures Proper(Evidence(verified, v))
  {
    ObservationProper(Bool(verified));
    var last := Evidence(verified, v).members[4];
    NamesDiffer("objectLocation", "armLocation");
    NamesDiffer("objectLocation", "held");
    NamesDiffer("armLocation", "held");
    assert Proper(last.value);
    NamesDiffer("evidence", "virtualState");
    NamesDiffer("preconditionsMet", "virtualState");
    NamesDiffer("verified", "virtualState");
    NamesDiffer("stopped", "virtualState");
    var ms, os := Evidence(verified, v).members, Observation(Bool(verified));
    assert ms == os + [last];
    assert DistinctKeys(os) && forall i :: 0 <= i < |os| ==> Proper(os[i].value);
  }

  /** No other text has the hash of the preparation. */
  ghost predicate Guards(h: Hash, site: Site) {
    forall t :: h(t) == h(Print(Preparation(site))) ==> t == Print(Preparation(site))
  }

  lemma EvidencePrintsApart(site: Site, verified: bool, v: Virtual)
    ensures Print(Evidence(verified, v)) != Print(Preparation(site))
  {
    hide T, Proper, DistinctKeys, Print;
    PreparationProper(site);
    EvidenceProper(verified, v);
    JsonOrder.PrintDecidesSame(Evidence(verified, v), Preparation(site));
    NamesDiffer("evidence", "contractVersion");
    NamesDiffer("evidence", "configurationSnapshotDigest");
    NamesDiffer("evidence", "preparationObservation");
    NamesDiffer("evidence", "mode");
    assert !HasSame(Evidence(verified, v).members[0], Preparation(site).members);
  }

  /**
   A preparation and a final check never share a digest, so neither overwrites the other in the table
   of snapshots.
   */
  lemma EvidenceDiffers(h: Hash, site: Site, verified: bool, v: Virtual)
    requires Guards(h, site)
    ensures Digest(h, Evidence(verified, v)).Some? ==> Digest(h, Evidence(verified, v)) != Digest(h, Preparation(site))
  {
    EvidencePrintsApart(site, verified, v);
    hide Print, Preparation, Evidence, Printable;
  }

  /** Such hashes exist, and spell their digests the way the contract asks for. */
  lemma HashesServe(site: Site)
    ensures exists h: Hash :: ShortHash(h) && Guards(h, site) && HexHash(h)
  {
    var p := Print(Preparation(site));
    var one, other := HexText("sha256:", 0x31, 64), HexText("sha256:", 0x30, 64);
    assert one[7] != other[7];
    hide Print, Preparation, HexText;
    var h: Hash := t => if t == p then one else other;
    forall t ensures Plain(h(t)) && IsHash(h(t)) { AsciiPlain(h(t)); }
    assert ShortHash(h) && Guards(h, site) && HexHash(h);
  }

  // ---------- the list of runs ----------

  lemma {:induction false} PutHolds(rs: seq<Run>, r: Run)
    requires Distinct(rs)
    ensures Distinct(Put(rs, r))
    ensures forall x :: x in Put(rs, r) <==> x == r || (x in rs && x.runId != r.runId)
  {
    if rs != [] {
      assert rs[1..] == rs[1..];
      PutHolds(rs[1..], r);
      var p := Put(rs, r);
      if rs[0].runId == r.runId {
        assert forall x :: x in rs[1..] ==> x.runId != r.runId;
      } else {
        forall i | 0 < i < |p| ensures p[i].runId != rs[0].runId { assert p[i] in Put(rs[1..], r); }
      }
      assert forall x :: x in rs <==> x == rs[0] || x in rs[1..];
    }
  }

  // ---------- memory and log ----------

  ghost predicate Prepared(h: Hash, site: Site, s: Store) {
    var p := Preparation(site);
    && (s.runs != [] ==> Digest(h, p).Some? && Digest(h, p).value in s.snapshots
                         && s.snapshots[Digest(h, p).value] == p)
    && forall r :: r in s.runs ==> StoredPreparation(s, r.runId) == Some(p)
  }

  ghost predicate AllGood(h: Hash, rs: seq<Run>, time: int) {
    forall r :: r in rs ==> Good(h, r, time)
  }

  /** What memory holds, and what the log gives when it is replayed. */
  ghost predicate Holds(h: Hash, site: Site, s: Store, time: int) {
    Distinct(s.runs) && Prepared(h, site, s) && AllGood(h, s.runs, time)
  }

  /** A newer record that extends one which was still open. */
  predicate Newer(q: Run, r: Run) {
    q.runId == r.runId && Later(q, r) && r.revision < q.revision && !Terminal(r.phase)
  }

  /** The log has the record memory has, or, when its latest write was not logged, an older open one or none. */
  predicate Lags(logged: seq<Run>, held: seq<Run>, unlogged: set<Text>, id: Text) {
    if id in unlogged then
      Find(held, id).Some? && (Find(logged, id).Some? ==> Newer(Find(held, id).value, Find(logged, id).value))
    else Find(logged, id) == Find(held, id)
  }

  ghost predicate Behind(logged: seq<Run>, held: seq<Run>, unlogged: set<Text>) {
    forall id :: Lags(logged, held, unlogged, id)
  }

  function Logged(h: Hash, n: Node): Store { Replay(h, n.log) }

  ghost predicate LinesPass(h: Hash, log: seq<Line>) {
    forall i :: 0 <= i < |log| ==> Checks(h, log[i].run)
  }

  /** What every state satisfies between any two writes, whatever became of the appends. */
  ghost predicate Sound(h: Hash, site: Site, n: Node, time: int) {
    && Holds(h, site, n.store, time) && Holds(h, site, Logged(h, n), time)
    && Behind(Logged(h, n).runs, n.store.runs, n.unlogged) && LinesPass(h, n.log)
    && Aligned(h, site, n.store, Logged(h, n), n.unlogged)
  }

  lemma GoodLater(h: Hash, rs: seq<Run>, time: int, later: int)
    requires AllGood(h, rs, time) && time <= later
    ensures AllGood(h, rs, later)
  {
  }

  lemma {:induction false} SoundLater(h: Hash, site: Site, n: Node, time: int, later: int)
    requires Sound(h, site, n, time) && time <= later
    ensures Sound(h, site, n, later)
  {
    hide Behind, AllGood, Prepared, Replay, Distinct, Aligned;
    GoodLater(h, n.store.runs, time, later);
    GoodLater(h, Logged(h, n).runs, time, later);
  }

  // ---------- one write ----------

  lemma ReplayLast(h: Hash, log: seq<Line>, l: Line)
    ensures Replay(h, log + [l]) == Record(h, Replay(h, log), l)
  {
    assert (log + [l])[..|log|] == log;
  }

  lemma {:induction false} RecordHolds(h: Hash, site: Site, s: Store, l: Line, time: int, later: int)
    requires Holds(h, site, s, time) && time <= later && Good(h, l.run, later) && Digest(h, Preparation(site)).Some?
    requires l.preparation == Some(Preparation(site)) || (l.preparation.None? && Find(s.runs, l.run.runId).Some?)
    requires l.evidence.Some? ==> Digest(h, l.evidence.value) != Digest(h, Preparation(site))
    ensures Holds(h, site, Record(h, s, l), later) && Record(h, s, l).runs == Put(s.runs, l.run)
    ensures StoredPreparation(Record(h, s, l), l.run.runId) == Some(Preparation(site))
  {
    hide Preparation, Digest, Put, Good;
    var m := Record(h, s, l);
    PutHolds(s.runs, l.run);
    GoodLater(h, s.runs, time, later);
    if l.preparation.None? {
      assert Find(s.runs, l.run.runId).value in s.runs;
      assert s.runs != [];
    }
  }

  lemma {:induction false} PutBehind(logged: seq<Run>, held: seq<Run>, unlogged: set<Text>, e: Run, kept: bool)
    requires Behind(logged, held, unlogged)
    requires Find(held, e.runId).Some? ==> Newer(e, Find(held, e.runId).value)
    ensures Behind(if kept then Put(logged, e) else logged, Put(held, e),
                   if kept then unlogged - {e.runId} else unlogged + {e.runId})
  {
    hide Put, Terminal, Later;
    var more := if kept then Put(logged, e) else logged;
    var less := if kept then unlogged - {e.runId} else unlogged + {e.runId};
    forall id ensures Lags(more, Put(held, e), less, id) {
      assert Lags(logged, held, unlogged, id);
      PutFinds(held, e, id);
      PutFinds(logged, e, id);
      if id == e.runId && !kept && Find(logged, id).Some? {
        NewerTransitive(e, Find(held, id).value, Find(logged, id).value);
      }
    }
  }

  lemma {:induction false} NewerTransitive(a: Run, b: Run, c: Run)
    requires Newer(a, b) && (b == c || Newer(b, c))
    ensures Newer(a, c)
  {
    LaterTransitive(a, b, c);
  }

  /** The state a write of an accepted record leaves. */
  function Stored(h: Hash, n: Node, e: Run, preparation: Option<Json>, evidence: Option<Json>, fate: Append): Node {
    Or(n, Write(h, n, e, preparation, evidence, fate))
  }

  function Wrote(fate: Append, m: Node): Written { if fate.Appended? then Done(m) else Threw(m) }

  predicate MayWrite(h: Hash, site: Site, s: Store, e: Run, preparation: Option<Json>, evidence: Option<Json>) {
    && (match Find(s.runs, e.runId)
        case Some(r) => preparation.None? && Newer(e, r)
        case None => preparation == Some(Preparation(site)) && !AnyOpen(s.runs))
    && (evidence.Some? ==>
        && e.phase.VerifiedSuccess? && Find(s.runs, e.runId).Some?
        && Digest(h, evidence.value) != Digest(h, Preparation(site)))
  }

  /** Memory and log after a write, its line in the file or not. */
  lemma {:induction false} WriteStores(h: Hash, site: Site, held: Store, logged: Store, unlogged: set<Text>, e: Run,
                                       preparation: Option<Json>, evidence: Option<Json>, kept: bool, time: int,
                                           later: int)
    requires Holds(h, site, held, time) && Holds(h, site, logged, time) && Behind(logged.runs, held.runs, unlogged)
    requires Aligned(h, site, held, logged, unlogged) && MayWrite(h, site, held, e, preparation, evidence)
    requires time <= later && Good(h, e, later) && Digest(h, Preparation(site)).Some?
    ensures var all := Record(h, held, Line(e, preparation, evidence));
            var file := if kept then Record(h, logged, Line(e, Some(Preparation(site)), evidence)) else logged;
            var less := if kept then unlogged - {e.runId} else unlogged + {e.runId};
            && Holds(h, site, all, later) && Holds(h, site, file, later)
            && Behind(file.runs, all.runs, less) && Aligned(h, site, all, file, less)
            && StoredPreparation(all, e.runId) == Some(Preparation(site))
  {
    var line, full := Line(e, preparation, evidence), Line(e, Some(Preparation(site)), evidence);
    assert Lags(logged.runs, held.runs, unlogged, e.runId);
    NewerOpen(held.runs, e.runId, e);
    HeldDistinct(h, site, held, time);
    hide Preparation, Digest, Good, Behind, Holds, Newer, Aligned, Lags, Terminal, AnyOpen, Record, Distinct, Put;
    RecordHolds(h, site, held, line, time, later);
    PutBehind(logged.runs, held.runs, unlogged, e, kept);
    WriteAligned(h, site, held, logged, unlogged, line, kept);
    RecordHolds(h, site, logged, full, time, later);
    HoldsLater(h, site, logged, time, later);
  }

  /**
   A write changes memory, and the log when its line reached the file: then both have the new
   record, otherwise the log has the record it had.
   */
  lemma {:induction false} WriteSound(h: Hash, site: Site, n: Node, e: Run, preparation: Option<Json>,
            evidence: Option<Json>,
                                      fate: Append, time: int, later: int)
    returns (m: Node)
    requires Sound(h, site, n, time) && time <= later && Good(h, e, later) && Digest(h, Preparation(site)).Some?
    requires MayWrite(h, site, n.store, e, preparation, evidence)
    ensures Write(h, n, e, preparation, evidence, fate) == Wrote(fate, m) && Sound(h, site, m, later)
    ensures m.store.runs == Put(n.store.runs, e) && m.timers == n.timers && m.time == n.time && m.open == n.open
    ensures Logged(h, m).runs == (if InFile(fate) then Put(Logged(h, n).runs, e) else Logged(h, n).runs)
    ensures m.unlogged == (if InFile(fate) then n.unlogged - {e.runId} else n.unlogged + {e.runId})
    ensures FileEnds(n, m, fate)
  {
    assert Checks(h, e);
    assert Holds(h, site, n.store, time) && Holds(h, site, Logged(h, n), time) && LinesPass(h, n.log);
    assert Behind(Logged(h, n).runs, n.store.runs, n.unlogged) && Aligned(h, site, n.store, Logged(h, n), n.unlogged);
    hide *;
    WriteStores(h, site, n.store, Logged(h, n), n.unlogged, e, preparation, evidence, InFile(fate), time, later);
    WriteIs(h, site, n, e, preparation, evidence, fate);
    m := Stored(h, n, e, preparation, evidence, fate);
    WrittenSound(h, site, n, m, e, Line(e, preparation, evidence), Line(e, Some(Preparation(site)), evidence),
            InFile(fate), later);
  }

  lemma {:induction false} WrittenSound(h: Hash, site: Site, n: Node, m: Node, e: Run, line: Line, full: Line,
            kept: bool, later: int)
    requires line.run == e && full.run == e && Checks(h, e) && LinesPass(h, n.log)
    requires m.store == Record(h, n.store, line) && m.log == (if kept then n.log + [full] else n.log)
    requires var file := if kept then Record(h, Logged(h, n), full) else Logged(h, n);
             && Holds(h, site, m.store, later) && Holds(h, site, file, later)
             && Behind(file.runs, m.store.runs, m.unlogged) && Aligned(h, site, m.store, file, m.unlogged)
    ensures Sound(h, site, m, later) && m.store.runs == Put(n.store.runs, e)
    ensures Logged(h, m).runs == (if kept then Put(Logged(h, n).runs, e) else Logged(h, n).runs)
  {
    hide Holds, Behind, Aligned, Checks, Replay, Put, WithSnapshot;
    ReplayLast(h, n.log, full);
  }

  lemma HeldDistinct(h: Hash, site: Site, s: Store, time: int)
    requires Holds(h, site, s, time)
    ensures Distinct(s.runs)
  {
  }

  lemma {:induction false} NewerOpen(rs: seq<Run>, id: Text, e: Run)
    ensures Find(rs, id).Some? && Newer(e, Find(rs, id).value) ==> !Terminal(Find(rs, id).value.phase)
  {
  }

  lemma {:induction false} WriteIs(h: Hash, site: Site, n: Node, e: Run, preparation: Option<Json>,
            evidence: Option<Json>, fate: Append)
    requires Checks(h, e)
    requires StoredPreparation(Record(h, n.store, Line(e, preparation, evidence)), e.runId) == Some(Preparation(site))
    ensures var m := Stored(h, n, e, preparation, evidence, fate);
            && Write(h, n, e, preparation, evidence, fate) == Wrote(fate, m)
            && m == n.(store := Record(h, n.store, Line(e, preparation, evidence)),
                       log := if InFile(fate) then n.log + [Line(e, Some(Preparation(site)), evidence)] else n.log,
                       unlogged := if InFile(fate) then n.unlogged - {e.runId} else n.unlogged + {e.runId},
                       torn := Spoils(n, fate), cut := EndsCut(n, fate))
  {
    hide Record, Checks, Preparation;
  }

  lemma {:induction false} HoldsLater(h: Hash, site: Site, s: Store, time: int, later: int)
    requires Holds(h, site, s, time) && time <= later
    ensures Holds(h, site, s, later)
  {
    hide Prepared, Distinct, Good;
    GoodLater(h, s.runs, time, later);
  }

  // ---------- exactly memory ----------

  /**
   The log replays to exactly what memory holds, order and evidence included, exactly when no run's
   latest write is missing.
   */
  lemma {:induction false} LogIsMemory(h: Hash, site: Site, n: Node, time: int)
    requires Sound(h, site, n, time)
    ensures Logged(h, n) == n.store <==> n.unlogged == {}
  {
    hide Holds, Behind, Aligned, LinesPass, Replay;
    if n.unlogged == {} {
      AllLogged(h, site, n.store, Logged(h, n), time);
    } else {
      var id :| id in n.unlogged;
      LoggedIffNotMissing(h, site, n, time, id);
    }
  }

  lemma {:induction false} AllLogged(h: Hash, site: Site, held: Store, logged: Store, time: int)
    requires Holds(h, site, held, time) && Holds(h, site, logged, time)
    requires Behind(logged.runs, held.runs, {}) && Aligned(h, site, held, logged, {})
    ensures held == logged
  {
    hide Preparation, Digest, Good, Ordered, AllGood;
    forall id ensures Find(held.runs, id) == Find(logged.runs, id) { assert Lags(logged.runs, held.runs, {}, id); }
    SameRuns(held.runs, logged.runs);
    SamePreparations(h, site, held, logged);
    assert held.snapshots == logged.snapshots by { hide Distinct, Find, Behind; assert ChecksLogged(held.runs, {}); }
  }

  lemma {:induction false} SamePreparations(h: Hash, site: Site, held: Store, logged: Store)
    requires held.runs == logged.runs && Prepared(h, site, held) && Prepared(h, site, logged)
    requires OwnPreparations(held) && OwnPreparations(logged)
    ensures held.preparations == logged.preparations
  {
    hide Preparation, Digest;
  }

  /** Run by run: the log has the record memory has exactly when the run's latest write is not missing. */
  lemma {:induction false} LoggedIffNotMissing(h: Hash, site: Site, n: Node, time: int, id: Text)
    requires Sound(h, site, n, time)
    ensures Find(Logged(h, n).runs, id) == Find(n.store.runs, id) <==> id !in n.unlogged
  {
    hide Replay, Good, Aligned, LinesPass, Prepared, AllGood;
    assert Lags(Logged(h, n).runs, n.store.runs, n.unlogged, id);
  }
}
