/**
 The inspector keeps digests of a run instead of the run. Matching against the digests is
 the full comparison, apart from the depth the full comparison cannot reach.
 */
module RunPins {
  import opened Options
  import opened Texts
  import opened JsonText
  import opened Digests
  import opened RunContract
  import RunOrder
  import RunDepth

  datatype Memory = Memory(eventDigests: seq<Text>, inputsDigest: Text, approvalDigest: Text, approvalExpiresAt: int)

  /** Identity, revision and digest of a run, with or without the digests of its content. */
  datatype Pins = Pins(
    runId: Text, mode: Mode, capabilityId: Text, implementationId: Text, implementationDigest: Text,
    configurationId: Text, configurationDigest: Text, routeReceiptDigest: Text, snapshotDigest: Text,
    revision: int, runDigest: Text, memory: Option<Memory>)

  function PinRun(r: Run): Pins {
    Pins(r.runId, r.mode, r.capabilityId, r.implementationId, r.implementationDigest, r.configurationId,
         r.configurationDigest, r.routeReceiptDigest, r.snapshotDigest, r.revision, r.runDigest, None)
  }

  function EventDigests(h: Hash, es: seq<Event>): Option<seq<Text>> {
    if es == [] then Some([])
    else
      match (Digest(h, EventJson(es[0])), EventDigests(h, es[1..]))
      case (Some(d), Some(rest)) => Some([d] + rest)
      case _ => None
  }

  /** None where computing a digest throws. */
  function RememberRun(h: Hash, r: Run): Option<Pins> {
    match (EventDigests(h, r.events), Digest(h, r.inputs))
    case (Some(es), Some(inputs)) => Some(PinRun(r).(memory := Some(Memory(es, inputs, r.approval.digest,
            r.approval.expiresAt))))
    case _ => None
  }

  predicate MatchIdentity(r: Run, p: Pins) {
    PinRun(r).(revision := p.revision, runDigest := p.runDigest, memory := p.memory) == p
  }

  /** `matchPins` does not throw. */
  predicate MatchPins(h: Hash, r: Run, p: Pins) {
    && MatchIdentity(r, p)
    && r.revision >= p.revision && (r.revision == p.revision ==> r.runDigest == p.runDigest)
    && match p.memory
       case None => true
       case Some(m) =>
         && |r.events| >= |m.eventDigests|
         && (forall i :: 0 <= i < |m.eventDigests| ==> Digest(h, EventJson(r.events[i])) == Some(m.eventDigests[i]))
         && Digest(h, r.inputs) == Some(m.inputsDigest)
         && r.approval.digest == m.approvalDigest && r.approval.expiresAt == m.approvalExpiresAt
  }

  lemma {:induction false} EventDigestsAt(h: Hash, es: seq<Event>)
    ensures EventDigests(h, es).Some? <==> forall i :: 0 <= i < |es| ==> Digest(h, EventJson(es[i])).Some?
    ensures EventDigests(h, es).Some? ==>
      |EventDigests(h, es).value| == |es|
      && forall i :: 0 <= i < |es| ==> Some(EventDigests(h, es).value[i]) == Digest(h, EventJson(es[i]))
  {
    if es != [] {
      EventDigestsAt(h, es[1..]);
      assert forall i :: 0 < i < |es| ==> es[i] == es[1..][i - 1];
      assert forall i :: 0 <= i < |es[1..]| ==> es[1..][i] == es[i + 1];
    }
  }

  lemma EventDigestExists(h: Hash, r: Run, i: nat)
    requires Normalized(h, r) && i < |r.events|
    ensures Digest(h, EventJson(r.events[i])).Some? && Proper(EventJson(r.events[i]))
  {
    assert ValidEvent(r.events[i], i);
    RunDepth.EventPrintable(r.events[i], i, 0, DIGEST_DEPTH);
    RunDepth.PrintableElsewhere(r.events[i].detail, 0, COMPARE_DEPTH, 0, COMPARE_DEPTH);
    RunOrder.EventProper(r.events[i]);
  }

  lemma InputsDigestExists(h: Hash, r: Run)
    requires Normalized(h, r)
    ensures Digest(h, r.inputs).Some?
  {
    RunDepth.PrintableElsewhere(r.inputs, 0, COMPARE_DEPTH, 0, COMPARE_DEPTH);
    RunDepth.PrintableElsewhere(r.inputs, 0, COMPARE_DEPTH, 0, DIGEST_DEPTH);
  }

  /** A believed run can always be remembered. */
  lemma BelievedIsRemembered(h: Hash, r: Run)
    requires Normalized(h, r)
    ensures RememberRun(h, r).Some?
  {
    forall i | 0 <= i < |r.events| ensures Digest(h, EventJson(r.events[i])).Some? { EventDigestExists(h, r, i); }
    EventDigestsAt(h, r.events);
    InputsDigestExists(h, r);
  }

  lemma EventComparesAsDigest(h: Hash, r: Run, prior: Run, i: nat)
    requires Injective(h) && Normalized(h, r) && Normalized(h, prior) && i < |prior.events| && i < |r.events|
    ensures SameCanonical(EventJson(r.events[i]), EventJson(prior.events[i]))
       <==> Digest(h, EventJson(r.events[i])) == Digest(h, EventJson(prior.events[i]))
            && RunDepth.Depth(prior.events[i].detail) < COMPARE_DEPTH
  {
    var v, w := EventJson(r.events[i]), EventJson(prior.events[i]);
    EventDigestExists(h, r, i);
    EventDigestExists(h, prior, i);
    DigestDecidesSame(h, v, w);
    CanonicalDecidesSame(v, w, COMPARE_DEPTH);
    assert ValidEvent(prior.events[i], i);
    RunDepth.EventPrintable(prior.events[i], i, 0, COMPARE_DEPTH);
  }

  lemma InputsCompareAsDigest(h: Hash, r: Run, prior: Run)
    requires Injective(h) && Normalized(h, r) && Normalized(h, prior)
    ensures SameCanonical(r.inputs, prior.inputs) <==> Digest(h, r.inputs) == Digest(h, prior.inputs)
  {
    InputsDigestExists(h, r);
    InputsDigestExists(h, prior);
    DigestDecidesSame(h, r.inputs, prior.inputs);
    CanonicalDecidesSame(r.inputs, prior.inputs, COMPARE_DEPTH);
  }

  ghost predicate Shallow(r: Run) {
    forall i :: 0 <= i < |r.events| ==> RunDepth.Depth(r.events[i].detail) < COMPARE_DEPTH
  }

  /**
   The digests decide exactly as the full record does, once every remembered event detail is within
   the comparison's reach.
   */
  lemma PinsRefineMatches(h: Hash, r: Run, prior: Run)
    requires Injective(h) && Normalized(h, r) && Normalized(h, prior)
    ensures RememberRun(h, prior).Some?
    ensures Matches(r, prior) <==> MatchPins(h, r, RememberRun(h, prior).value) && Shallow(prior)
  {
    BelievedIsRemembered(h, prior);
    EventDigestsAt(h, prior.events);
    var p := RememberRun(h, prior).value;
    assert MatchIdentity(r, p) <==> SameIdentity(r, prior);
    InputsCompareAsDigest(h, r, prior);
    if |r.events| >= |prior.events| {
      forall i | 0 <= i < |prior.events|
        ensures SameCanonical(EventJson(r.events[i]), EventJson(prior.events[i]))
           <==> Digest(h, EventJson(r.events[i])) == Some(p.memory.value.eventDigests[i])
                && RunDepth.Depth(prior.events[i].detail) < COMPARE_DEPTH
      {
        EventComparesAsDigest(h, r, prior, i);
      }
    }
  }

  lemma DeeperCanonical(v: Json, w: Json)
    requires SameCanonical(v, w)
    ensures Canonical(v, DIGEST_DEPTH).Some? && Canonical(v, DIGEST_DEPTH) == Canonical(w, DIGEST_DEPTH)
  {
    RunDepth.PrintableElsewhere(v, 0, COMPARE_DEPTH, 0, COMPARE_DEPTH);
    RunDepth.PrintableElsewhere(w, 0, COMPARE_DEPTH, 0, COMPARE_DEPTH);
    RunDepth.PrintableElsewhere(v, 0, COMPARE_DEPTH, 0, DIGEST_DEPTH);
    RunDepth.PrintableElsewhere(w, 0, COMPARE_DEPTH, 0, DIGEST_DEPTH);
  }

  /** A record that replaces a matching record matches what was remembered before it. */
  lemma MatchPinsExtends(h: Hash, newer: Run, r: Run, p: Pins)
    requires Matches(newer, r) && MatchPins(h, r, p)
    ensures MatchPins(h, newer, p)
  {
    DeeperCanonical(newer.inputs, r.inputs);
    if p.memory.Some? {
      forall i | 0 <= i < |p.memory.value.eventDigests|
        ensures Digest(h, EventJson(newer.events[i])) == Some(p.memory.value.eventDigests[i])
      {
        DeeperCanonical(EventJson(newer.events[i]), EventJson(r.events[i]));
      }
    }
  }

  // ---------- the table of known runs ----------

  const MAX_KNOWN_RUNS := 128
  const MAX_SHOWN_RUNS := 32

  /** Entries in insertion order, oldest first. */
  type Table = seq<Pins>

  ghost predicate DistinctEntries(t: Table) {
    forall i, j :: 0 <= i < j < |t| ==> t[i].runId != t[j].runId
  }

  function Recall(t: Table, id: Text): (r: Option<Pins>)
    ensures r.Some? ==> r.value in t && r.value.runId == id
    ensures r.None? ==> forall i :: 0 <= i < |t| ==> t[i].runId != id
  {
    if t == [] then None else if t[0].runId == id then Some(t[0]) else Recall(t[1..], id)
  }

  function Drop(t: Table, id: Text): (r: Table)
    ensures forall p :: p in r <==> p in t && p.runId != id
  {
    if t == [] then [] else (if t[0].runId == id then [] else [t[0]]) + Drop(t[1..], id)
  }

  function DropAll(t: Table, rs: seq<Run>): Table
    decreases rs
  {
    if rs == [] then t else DropAll(Drop(t, rs[0].runId), rs[1..])
  }

  function RememberAll(h: Hash, rs: seq<Run>): Table
    requires forall i :: 0 <= i < |rs| ==> RememberRun(h, rs[i]).Some?
  {
    if rs == [] then [] else [RememberRun(h, rs[0]).value] + RememberAll(h, rs[1..])
  }

  function Trim(t: Table): Table {
    if |t| <= MAX_KNOWN_RUNS then t else t[|t| - MAX_KNOWN_RUNS..]
  }

  /** The table after a round: the shown runs move to the end, the oldest entries make room. */
  function Stored(h: Hash, t: Table, rs: seq<Run>): Table
    requires forall i :: 0 <= i < |rs| ==> RememberRun(h, rs[i]).Some?
  {
    Trim(DropAll(t, rs) + RememberAll(h, rs))
  }

  /** The runs a result shows, the selected one first. */
  function Shown(listing: seq<Run>, selected: Option<Run>): seq<Run> {
    match selected
    case None => listing
    case Some(r) =>
      var all := [r] + WithoutRun(listing, r.runId);
      if |all| <= MAX_SHOWN_RUNS then all else all[..MAX_SHOWN_RUNS]
  }

  /** The responses of one inspection, in the order they are awaited. */
  datatype Reading = Reading(
    mode: Mode, listing: seq<Run>, browser: Option<Pins>, requested: Option<Text>,
    value: Option<Run>, receipt: Option<Run>, current: bool)

  predicate ListedOk(h: Hash, t: Table, reading: Reading, r: Run) {
    && r.mode == reading.mode
    && (Recall(t, r.runId).Some? ==> MatchPins(h, r, Recall(t, r.runId).value))
    && (reading.browser.Some? && reading.browser.value.runId == r.runId ==> MatchPins(h, r, reading.browser.value))
  }

  function SelectedId(reading: Reading): Option<Text> {
    if reading.requested.Some? then reading.requested
    else if reading.browser.Some? then Some(reading.browser.value.runId)
    else if |reading.listing| == 1 then Some(reading.listing[0].runId)
    else None
  }

  function Expected(h: Hash, t: Table, reading: Reading, id: Text): (p: Option<Pins>)
    ensures p.Some? ==> p.value.runId == id
  {
    var listed := Find(reading.listing, id);
    if listed.Some? then RememberRun(h, listed.value)
    else if reading.browser.Some? && reading.browser.value.runId == id then reading.browser
    else Recall(t, id)
  }

  /** The exact read of the selected run agrees with everything known of it. */
  predicate SelectionOk(h: Hash, t: Table, reading: Reading) {
    match SelectedId(reading)
    case None => true
    case Some(id) =>
      match (Expected(h, t, reading, id), reading.value)
      case (Some(expected), Some(value)) =>
        MatchPins(h, value, expected) && MatchesRemembered(h, t, value) && value.mode == reading.mode
      case _ => false
  }

  /** The run of the receipt, when it extends the one just read; otherwise the one just read. */
  function SelectedRun(reading: Reading): Option<Run> {
    if SelectedId(reading).None? || reading.value.None? then None
    else if reading.receipt.Some? && Matches(reading.receipt.value, reading.value.value) then reading.receipt
    else reading.value
  }

  /** When an inspection gives a result. */
  predicate Accepts(h: Hash, t: Table, reading: Reading) {
    && (reading.requested.Some? ==> Recall(t, reading.requested.value).Some?
                                    || (reading.browser.Some? && reading.browser.value.runId
                                        == reading.requested.value))
    && (forall i :: 0 <= i < |reading.listing| ==> ListedOk(h, t, reading, reading.listing[i]))
    && SelectionOk(h, t, reading)
    && reading.current
  }

  predicate MatchesRemembered(h: Hash, t: Table, r: Run) {
    Recall(t, r.runId).Some? ==> MatchPins(h, r, Recall(t, r.runId).value)
  }

  lemma ShownDistinct(listing: seq<Run>, selected: Option<Run>)
    requires Distinct(listing)
    ensures Distinct(Shown(listing, selected))
    ensures forall r :: r in Shown(listing, selected) ==> Some(r) == selected || r in listing
  {
    if selected.Some? {
      var id := selected.value.runId;
      WithoutRunDistinct(listing, id);
      var rest := WithoutRun(listing, id);
      forall i | 0 <= i < |rest| ensures rest[i].runId != id { assert rest[i] in rest; }
    }
  }

  lemma {:induction false} DropDistinct(t: Table, id: Text)
    requires DistinctEntries(t)
    ensures DistinctEntries(Drop(t, id))
    ensures forall i :: 0 <= i < |Drop(t, id)| ==> Drop(t, id)[i].runId != id
  {
    if t != [] {
      DropDistinct(t[1..], id);
      var rest := Drop(t[1..], id);
      forall i | 0 <= i < |rest| ensures rest[i].runId != t[0].runId {
        assert rest[i] in t[1..];
      }
    }
  }

  lemma {:induction false} DropLast(t: Table, p: Pins, id: Text)
    requires p.runId != id
    ensures Drop(t + [p], id) == Drop(t, id) + [p]
  {
    if t != [] {
      assert (t + [p])[1..] == t[1..] + [p];
      DropLast(t[1..], p, id);
    }
  }

  lemma {:induction false} DropAllLast(t: Table, p: Pins, rs: seq<Run>)
    requires forall i :: 0 <= i < |rs| ==> rs[i].runId != p.runId
    ensures DropAll(t + [p], rs) == DropAll(t, rs) + [p]
    decreases rs
  {
    if rs != [] {
      DropLast(t, p, rs[0].runId);
      DropAllLast(Drop(t, rs[0].runId), p, rs[1..]);
    }
  }

  lemma {:induction false} MovedDistinct(h: Hash, t: Table, r: Run)
    requires DistinctEntries(t) && RememberRun(h, r).Some?
    ensures DistinctEntries(Drop(t, r.runId) + [RememberRun(h, r).value])
  {
    DropDistinct(t, r.runId);
  }

  /** Moving one run to the end of the table is one step of storing them all. */
  lemma StoreStep(h: Hash, t: Table, rs: seq<Run>)
    requires rs != [] && Distinct(rs)
    requires forall i :: 0 <= i < |rs| ==> RememberRun(h, rs[i]).Some?
    ensures var next := Drop(t, rs[0].runId) + [RememberRun(h, rs[0]).value];
            DropAll(next, rs[1..]) + RememberAll(h, rs[1..]) == DropAll(t, rs) + RememberAll(h, rs)
  {
    DropAllLast(Drop(t, rs[0].runId), RememberRun(h, rs[0]).value, rs[1..]);
  }

  lemma {:induction false} DropAllKeeps(t: Table, rs: seq<Run>)
    ensures forall p :: p in DropAll(t, rs) <==> p in t && forall r :: r in rs ==> r.runId != p.runId
    decreases rs
  {
    if rs != [] { DropAllKeeps(Drop(t, rs[0].runId), rs[1..]); }
  }

  lemma {:induction false} RememberAllFrom(h: Hash, rs: seq<Run>)
    requires forall i :: 0 <= i < |rs| ==> RememberRun(h, rs[i]).Some?
    ensures |RememberAll(h, rs)| == |rs|
    ensures forall p :: p in RememberAll(h, rs) <==> exists r :: r in rs && RememberRun(h, r) == Some(p)
  {
    if rs != [] {
      RememberAllFrom(h, rs[1..]);
      assert forall r :: r in rs <==> r == rs[0] || r in rs[1..];
    }
  }

  /**
   What a round leaves remembered: an entry of an unshown run unchanged, or the digests of a shown
   run; the shown runs all stay.
   */
  lemma StoredEntries(h: Hash, t: Table, rs: seq<Run>)
    requires |rs| <= MAX_SHOWN_RUNS
    requires forall i :: 0 <= i < |rs| ==> RememberRun(h, rs[i]).Some?
    ensures |Stored(h, t, rs)| <= MAX_KNOWN_RUNS
    ensures forall r :: r in rs ==> RememberRun(h, r).value in Stored(h, t, rs)
    ensures forall p :: p in Stored(h, t, rs) ==>
      (p in t && forall r :: r in rs ==> r.runId != p.runId) || exists r :: r in rs && RememberRun(h, r) == Some(p)
  {
    hide DropAll, RememberAll, RememberRun;
    DropAllKeeps(t, rs);
    RememberAllFrom(h, rs);
    var all := DropAll(t, rs) + RememberAll(h, rs);
    forall r | r in rs ensures RememberRun(h, r).value in Stored(h, t, rs) {
      ShownStays(DropAll(t, rs), RememberAll(h, rs), RememberRun(h, r).value);
    }
    forall p | p in Stored(h, t, rs)
      ensures (p in t && forall r :: r in rs ==> r.runId != p.runId)
              || exists r :: r in rs && RememberRun(h, r) == Some(p)
    {
      assert p in all;
    }
  }

  /** Trimming from the front takes none of the last entries when there are few enough of them. */
  lemma ShownStays(kept: Table, shown: Table, p: Pins)
    requires |shown| <= MAX_KNOWN_RUNS && p in shown
    ensures p in Trim(kept + shown)
  {
    var all := kept + shown;
    var k :| 0 <= k < |shown| && shown[k] == p;
    assert all[|kept| + k] == p;
    if |all| > MAX_KNOWN_RUNS { assert Trim(all)[|kept| + k - (|all| - MAX_KNOWN_RUNS)] == p; }
  }

  ghost predicate GoodRuns(h: Hash, t: Table, rs: seq<Run>) {
    && Distinct(rs) && |rs| <= MAX_SHOWN_RUNS
    && forall i :: 0 <= i < |rs| ==> Normalized(h, rs[i]) && MatchesRemembered(h, t, rs[i])
                                     && RememberRun(h, rs[i]).Some?
  }

  /** Two records of one run remembered by successive rounds extend one another. */
  lemma RememberedChain(h: Hash, t: Table, rs: seq<Run>, prior: Run, p: Pins)
    requires Injective(h) && GoodRuns(h, t, rs)
    requires Normalized(h, prior) && Shallow(prior) && Recall(t, prior.runId) == RememberRun(h, prior)
    requires DistinctEntries(t) && p in Stored(h, t, rs) && p.runId == prior.runId
    ensures Some(p) == RememberRun(h, prior) || exists r :: r in rs && RememberRun(h, r) == Some(p) && Matches(r, prior)
  {
    hide Normalized, RememberRun, Matches, MatchPins, Stored, Shallow, Injective, DistinctEntries;
    StoredEntries(h, t, rs);
    BelievedIsRemembered(h, prior);
    if r :| r in rs && RememberRun(h, r) == Some(p) {
      RememberedId(h, r);
      PinsRefineMatches(h, r, prior);
    } else {
      RecallIs(t, p);
    }
  }

  // ---------- over inspections ----------

  /**
   What one inspection shows and leaves remembered: a result exactly when every check passes, and the
   table changes only then.
   */
  ghost predicate Inspected(h: Hash, t: Table, reading: Reading, shown: Option<seq<Run>>, u: Table) {
    && (shown.Some? <==> Accepts(h, t, reading))
    && match shown
       case None => u == t
       case Some(rs) =>
         rs == Shown(reading.listing, SelectedRun(reading)) && GoodRuns(h, t, rs) && u == Stored(h, t, rs)
  }

  /** The table after each of a number of inspections, from the empty one on. */
  ghost predicate Inspections(h: Hash, tables: seq<Table>, readings: seq<Reading>) {
    && |tables| == |readings| + 1 && tables[0] == []
    && forall k :: 0 <= k < |readings| ==> OneInspection(h, tables[k], readings[k], tables[k + 1])
  }

  ghost predicate OneInspection(h: Hash, t: Table, reading: Reading, u: Table) {
    exists shown :: Inspected(h, t, reading, shown, u)
  }

  /**
   The later digests are those of the same run, at no lower revision, with the earlier event digests
   as their start.
   */
  predicate PinsExtend(q: Pins, p: Pins) {
    && q.(revision := p.revision, runDigest := p.runDigest, memory := p.memory) == p
    && q.revision >= p.revision && (q.revision == p.revision ==> q.runDigest == p.runDigest)
    && match (q.memory, p.memory)
       case (Some(m), Some(n)) => n.eventDigests <= m.eventDigests && m.(eventDigests := n.eventDigests) == n
       case _ => false
  }

  lemma PinsExtendTransitive(a: Pins, b: Pins, c: Pins)
    requires PinsExtend(a, b) && PinsExtend(b, c)
    ensures PinsExtend(a, c)
  {
  }

  /**
   What is remembered of a run that passed the compact comparison extends what was remembered before,
   however deep its details.
   */
  lemma RememberedExtends(h: Hash, r: Run, p: Pins)
    requires MatchPins(h, r, p) && p.memory.Some? && RememberRun(h, r).Some?
    ensures PinsExtend(RememberRun(h, r).value, p)
  {
    EventDigestsAt(h, r.events);
    var digests, before := EventDigests(h, r.events).value, p.memory.value.eventDigests;
    forall i | 0 <= i < |before| ensures digests[i] == before[i] {
      assert Digest(h, EventJson(r.events[i])) == Some(before[i]);
    }
  }

  /** Entries are of different runs and hold digests of their content. */
  ghost predicate Recorded(t: Table) {
    DistinctEntries(t) && forall p :: p in t ==> p.memory.Some?
  }

  lemma {:induction false} DropAllDistinct(t: Table, rs: seq<Run>)
    requires DistinctEntries(t)
    ensures DistinctEntries(DropAll(t, rs))
    decreases rs
  {
    if rs != [] {
      DropDistinct(t, rs[0].runId);
      DropAllDistinct(Drop(t, rs[0].runId), rs[1..]);
    }
  }

  lemma {:induction false} RememberAllDistinct(h: Hash, rs: seq<Run>)
    requires Distinct(rs) && forall i :: 0 <= i < |rs| ==> RememberRun(h, rs[i]).Some?
    ensures |RememberAll(h, rs)| == |rs|
    ensures forall i :: 0 <= i < |rs| ==> RememberAll(h, rs)[i].runId == rs[i].runId
                                          && RememberAll(h, rs)[i].memory.Some?
    ensures DistinctEntries(RememberAll(h, rs))
  {
    if rs != [] {
      RememberAllDistinct(h, rs[1..]);
      var all, rest := RememberAll(h, rs), RememberAll(h, rs[1..]);
      forall i | 0 <= i < |rs| ensures all[i].runId == rs[i].runId && all[i].memory.Some? {
        if i > 0 { assert all[i] == rest[i - 1] && rs[i] == rs[1..][i - 1]; }
      }
    }
  }

  lemma {:induction false} StoredRecorded(h: Hash, t: Table, rs: seq<Run>)
    requires Recorded(t) && Distinct(rs) && forall i :: 0 <= i < |rs| ==> RememberRun(h, rs[i]).Some?
    ensures Recorded(Stored(h, t, rs))
  {
    hide RememberRun, DropAll, RememberAll;
    DropAllDistinct(t, rs);
    DropAllKeeps(t, rs);
    RememberAllDistinct(h, rs);
    var kept, tail := DropAll(t, rs), RememberAll(h, rs);
    var all := kept + tail;
    forall i, j | 0 <= i < j < |all| ensures all[i].runId != all[j].runId {
      if i < |kept| <= j { assert kept[i] in kept && rs[j - |kept|] in rs; }
    }
    assert forall p :: p in Stored(h, t, rs) ==> p in all;
    forall p | p in all ensures p.memory.Some? { if p !in kept { assert p in tail; } }
  }

  lemma {:induction false} RecallIs(t: Table, p: Pins)
    requires DistinctEntries(t) && p in t
    ensures Recall(t, p.runId) == Some(p)
  {
  }

  /** One inspection leaves what was remembered of a run, or digests that extend it. */
  lemma {:induction false} InspectionExtends(h: Hash, t: Table, reading: Reading, u: Table, id: Text)
    requires Recorded(t) && OneInspection(h, t, reading, u)
    ensures Recorded(u)
    ensures Recall(t, id).Some? && Recall(u, id).Some? ==> PinsExtend(Recall(u, id).value, Recall(t, id).value)
  {
    var shown :| Inspected(h, t, reading, shown, u);
    hide Accepts, Normalized, MatchPins, RememberRun, Stored, SelectedRun, Shown, PinsExtend;
    if shown.Some? {
      var rs := shown.value;
      StoredRecorded(h, t, rs);
      if Recall(t, id).Some? && Recall(u, id).Some? {
        var p, q := Recall(t, id).value, Recall(u, id).value;
        StoredEntries(h, t, rs);
        if r :| r in rs && RememberRun(h, r) == Some(q) {
          RememberedId(h, r);
          RememberedExtends(h, r, p);
        } else {
          RecallIs(t, q);
          PinsExtendSelf(p);
        }
      }
    } else if Recall(t, id).Some? {
      PinsExtendSelf(Recall(t, id).value);
    }
  }

  lemma PinsExtendSelf(p: Pins)
    requires p.memory.Some?
    ensures PinsExtend(p, p)
  {
  }

  lemma {:induction false} TablesRecorded(h: Hash, tables: seq<Table>, readings: seq<Reading>, k: nat)
    requires Inspections(h, tables, readings) && k < |tables|
    ensures Recorded(tables[k])
  {
    hide OneInspection;
    if k > 0 {
      TablesRecorded(h, tables, readings, k - 1);
      InspectionExtends(h, tables[k - 1], readings[k - 1], tables[k], []);
    }
  }

  /**
   Over any number of inspections in which a run stays in the table, what is remembered of it last
   extends what was remembered first: no event digest is ever replaced, however deep the details.
   */
  lemma {:induction false} PinsOverInspections(h: Hash, tables: seq<Table>, readings: seq<Reading>, i: nat, j: nat,
            id: Text)
    requires Inspections(h, tables, readings) && i <= j < |tables|
    requires forall k :: i <= k <= j ==> Recall(tables[k], id).Some?
    ensures PinsExtend(Recall(tables[j], id).value, Recall(tables[i], id).value)
    decreases j
  {
    hide OneInspection, PinsExtend;
    TablesRecorded(h, tables, readings, i);
    if i == j {
      PinsExtendSelf(Recall(tables[i], id).value);
    } else {
      PinsOverInspections(h, tables, readings, i, j - 1, id);
      TablesRecorded(h, tables, readings, j - 1);
      InspectionExtends(h, tables[j - 1], readings[j - 1], tables[j], id);
      PinsExtendTransitive(Recall(tables[j], id).value, Recall(tables[j - 1], id).value, Recall(tables[i], id).value);
    }
  }

  ghost predicate RememberedAs(h: Hash, t: Table, id: Text, r: Run) {
    r.runId == id && Normalized(h, r) && Shallow(r) && RememberRun(h, r).Some? && Recall(t, id) == RememberRun(h, r)
  }

  /** Every run an inspection could show is shallow. */
  ghost predicate AllShallow(reading: Reading) {
    forall r :: r in reading.listing || Some(r) == reading.value || Some(r) == reading.receipt ==> Shallow(r)
  }

  lemma {:induction false} ShownShallow(reading: Reading)
    requires AllShallow(reading)
    ensures forall r :: r in Shown(reading.listing, SelectedRun(reading)) ==> Shallow(r)
  {
    hide Shallow, Matches, SelectedId;
  }

  lemma {:induction false} InspectionKeeps(h: Hash, t: Table, reading: Reading, u: Table, id: Text,
            prior: Run) returns (r: Run)
    requires Injective(h) && Recorded(t) && OneInspection(h, t, reading, u) && AllShallow(reading)
    requires RememberedAs(h, t, id, prior) && Recall(u, id).Some?
    ensures RememberedAs(h, u, id, r) && Extends(r, prior)
  {
    var shown :| Inspected(h, t, reading, shown, u);
    hide Accepts, Normalized, Matches, MatchPins, Stored, Shallow, Injective, RememberRun, SelectedRun, Shown;
    r := prior;
    if shown.Some? {
      var p := Recall(u, id).value;
      ShownShallow(reading);
      RememberedChain(h, t, shown.value, prior, p);
      if Some(p) != RememberRun(h, prior) {
        r :| r in shown.value && RememberRun(h, r) == Some(p) && Matches(r, prior);
        RememberedId(h, r);
      }
    }
  }

  lemma RememberedId(h: Hash, r: Run)
    requires RememberRun(h, r).Some?
    ensures RememberRun(h, r).value.runId == r.runId
  {
  }

  /** When the details are shallow too, what is remembered last is of a record that extends the first record in full. */
  lemma {:induction false} RecordsOverInspections(h: Hash, tables: seq<Table>, readings: seq<Reading>, i: nat, j: nat,
            id: Text, first: Run)
    returns (last: Run)
    requires Injective(h) && Inspections(h, tables, readings) && i <= j < |tables|
             && RememberedAs(h, tables[i], id, first)
    requires forall k :: i <= k <= j ==> Recall(tables[k], id).Some?
    requires forall k :: i <= k < j ==> AllShallow(readings[k])
    ensures RememberedAs(h, tables[j], id, last) && Extends(last, first)
    decreases j
  {
    hide RememberedAs, OneInspection, Injective, Matches, AllShallow;
    if i == j {
      last := first;
    } else {
      var prior := RecordsOverInspections(h, tables, readings, i, j - 1, id, first);
      TablesRecorded(h, tables, readings, j - 1);
      last := InspectionKeeps(h, tables[j - 1], readings[j - 1], tables[j], id, prior);
      ExtendsTransitive(last, prior, first);
    }
  }

  ghost predicate Believed(h: Hash, reading: Reading) {
    forall r :: r in reading.listing || Some(r) == reading.value || Some(r) == reading.receipt ==> Normalized(h, r)
  }

  lemma SelectedMatches(h: Hash, t: Table, reading: Reading)
    requires SelectionOk(h, t, reading) && SelectedRun(reading).Some?
    ensures MatchesRemembered(h, t, SelectedRun(reading).value)
  {
    var value, selected := reading.value.value, SelectedRun(reading).value;
    if selected != value && Recall(t, value.runId).Some? {
      MatchPinsExtends(h, selected, value, Recall(t, value.runId).value);
    }
  }

  lemma ShownRunMatches(h: Hash, t: Table, reading: Reading, r: Run)
    requires Accepts(h, t, reading) && Believed(h, reading)
    requires Some(r) == SelectedRun(reading) || r in reading.listing
    ensures Normalized(h, r) && MatchesRemembered(h, t, r) && RememberRun(h, r).Some?
  {
    if Some(r) == SelectedRun(reading) {
      SelectedMatches(h, t, reading);
    } else {
      var i :| 0 <= i < |reading.listing| && reading.listing[i] == r;
      assert ListedOk(h, t, reading, reading.listing[i]);
    }
    BelievedIsRemembered(h, r);
  }

  /** Every run a result shows is believed, can be remembered and extends what was remembered of it. */
  lemma ShownRuns(h: Hash, t: Table, reading: Reading)
    requires Accepts(h, t, reading) && Believed(h, reading)
    requires |reading.listing| <= MAX_SHOWN_RUNS && Distinct(reading.listing)
    ensures GoodRuns(h, t, Shown(reading.listing, SelectedRun(reading)))
  {
    hide Normalized, RememberRun, MatchPins, Accepts, SelectedRun;
    var rs := Shown(reading.listing, SelectedRun(reading));
    ShownDistinct(reading.listing, SelectedRun(reading));
    forall i | 0 <= i < |rs| ensures Normalized(h, rs[i]) && MatchesRemembered(h, t, rs[i])
        && RememberRun(h, rs[i]).Some? {
      assert rs[i] in rs;
      ShownRunMatches(h, t, reading, rs[i]);
    }
  }

  class Inspector {
    var known: Table

    ghost predicate Valid()
      reads this
    {
      |known| <= MAX_KNOWN_RUNS && DistinctEntries(known)
    }

    constructor ()
      ensures Valid() && known == []
    {
      known := [];
    }

    /** Every listed run must agree with what the browser selected and with what was remembered. */
    method CheckListing(h: Hash, reading: Reading) returns (ok: bool)
      ensures ok <==> forall i :: 0 <= i < |reading.listing| ==> ListedOk(h, known, reading, reading.listing[i])
    {
      for i := 0 to |reading.listing|
        invariant forall j :: 0 <= j < i ==> ListedOk(h, known, reading, reading.listing[j])
      {
        if !ListedOk(h, known, reading, reading.listing[i]) { return false; }
      }
      ok := true;
    }

    /** The selected run, when there is one: the last response all checks accepted. */
    method Select(h: Hash, reading: Reading) returns (ok: bool, selected: Option<Run>)
      ensures ok <==> SelectionOk(h, known, reading)
      ensures ok ==> selected == SelectedRun(reading)
      ensures ok && selected.Some? ==> MatchesRemembered(h, known, selected.value)
    {
      ok, selected := true, None;
      var id := SelectedId(reading);
      if id.None? { return; }
      var expected := Expected(h, known, reading, id.value);
      if expected.None? || reading.value.None? || !MatchPins(h, reading.value.value, expected.value) {
        return false, None;
      }
      var value := reading.value.value;
      var remembered := Recall(known, id.value);
      if remembered.Some? && !MatchPins(h, value, remembered.value) { return false, None; }
      if value.mode != reading.mode { return false, None; }
      selected := reading.value;
      if reading.receipt.Some? && Matches(reading.receipt.value, value) {
        if remembered.Some? { MatchPinsExtends(h, reading.receipt.value, value, remembered.value); }
        selected := reading.receipt;
      }
    }

    /** Move the shown runs to the end of the table, then trim it. */
    method Remember(h: Hash, runs: seq<Run>)
      requires Valid() && Distinct(runs)
      requires forall i :: 0 <= i < |runs| ==> RememberRun(h, runs[i]).Some?
      modifies this
      ensures Valid() && known == Stored(h, old(known), runs)
    {
      hide RememberRun, Drop;
      ghost var before := known;
      var i := 0;
      assert runs[0..] == runs;
      while i < |runs|
        invariant 0 <= i <= |runs|
        invariant DistinctEntries(known)
        invariant DropAll(known, runs[i..]) + RememberAll(h, runs[i..]) == DropAll(before, runs) + RememberAll(h, runs)
      {
        StoreStep(h, known, runs[i..]);
        MovedDistinct(h, known, runs[i]);
        assert runs[i..][1..] == runs[i + 1..];
        known := Drop(known, runs[i].runId) + [RememberRun(h, runs[i]).value];
        i := i + 1;
      }
      assert DropAll(known, runs[i..]) + RememberAll(h, runs[i..]) == known;
      while |known| > MAX_KNOWN_RUNS
        invariant DistinctEntries(known)
        invariant Trim(known) == Stored(h, before, runs)
      {
        assert Trim(known[1..]) == Trim(known);
        known := known[1..];
      }
    }

    /** One inspection from its responses on; reads never overlap, so the table is still the one the checks saw. */
    method Inspect(h: Hash, reading: Reading) returns (shown: Option<seq<Run>>)
      requires Valid()
      requires |reading.listing| <= MAX_SHOWN_RUNS && Distinct(reading.listing)
      requires Believed(h, reading)
      modifies this
      ensures Valid()
      ensures Inspected(h, old(known), reading, shown, known)
    {
      shown := None;
      if reading.requested.Some? && Recall(known, reading.requested.value).None?
         && !(reading.browser.Some? && reading.browser.value.runId == reading.requested.value) { return; }
      var listed := CheckListing(h, reading);
      if !listed { return; }
      var ok, selected := Select(h, reading);
      if !ok || !reading.current { return; }
      var runs := Shown(reading.listing, selected);
      ShownRuns(h, known, reading);
      Remember(h, runs);
      shown := Some(runs);
    }
  }
}
