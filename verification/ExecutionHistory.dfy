/**
 The history copy of a run in the execution controller: exactly which steps put an older copy in
 its place, and a run of the controller in which one does.
 */
module ExecutionHistories {
  import opened Options
  import opened Texts
  import opened RunContract
  import opened Digests
  import RunDepth
  import opened ExecutionProtocol

  /** The history holds an older copy of the run than before. */
  predicate GoesBack(s: State, t: State, id: Text) {
    Find(s.runs, id).Some? && Find(t.runs, id).Some?
        && Find(t.runs, id).value.revision < Find(s.runs, id).value.revision
  }

  /** The record a step compares with the selected run, or with the history when another run is selected. */
  function Offered(s: State, e: Step): Option<Run> {
    if s.disposed then None
    else
      match e
      case ExactArrives(Some(v)) =>
        if s.reading.Exact? && s.run.Some? && s.run.value.runId == s.reading.expected.runId then Some(v) else None
      case StopArrives(Some(v)) =>
        if s.stop.Some? && Matches(v, s.stop.value) && s.run.Some?
            && s.run.value.runId == s.stop.value.runId then Some(v) else None
      case ActionArrives(Some(v)) => if s.action.Some? then OfferedBy(s, s.action.value, v) else None
      case _ => None
  }

  function OfferedBy(s: State, action: Action, v: Run): Option<Run> {
    match action
    case Select(known) =>
      var latest := Find(s.runs, known.runId);
      Some(if latest.Some? && latest.value.revision > v.revision then latest.value else v)
    case Receipt(_) => if s.run.Some? && s.run.value.runId == v.runId then Some(v) else None
    case Prepare => None
    case Act(expected) => if s.run.Some? && s.run.value.runId == expected.runId then Some(v) else None
  }

  /** The listing does not name the run, and nothing keeps the history copy. */
  predicate Unlisted(s: State, e: Step, id: Text) {
    && e.ListingArrives? && e.listing.Some? && s.reading.Listing? && !s.disposed && Merge(s, e.listing.value).Some?
    && Find(e.listing.value, id).None?
  }

  /**
   The run is the selected one, the history copy is newer than the selected copy, and the step
   offers a record between the two, or a listing drops the settled history copy.
   */
  predicate TakesBack(s: State, e: Step, id: Text) {
    && s.run.Some? && s.run.value.runId == id && Find(s.runs, id).Some?
    && ((Offered(s, e).Some? && Offered(s, e).value.runId == id && Acceptable(s, Offered(s, e).value)
         && Offered(s, e).value.revision < Find(s.runs, id).value.revision)
        || (Unlisted(s, e, id) && !NeedsResolution(Find(s.runs, id).value)
            && s.run.value.revision < Find(s.runs, id).value.revision))
  }

  // ---------- finding the copy ----------

  lemma {:induction false} KeepFinds(rs: seq<Run>, index: nat, id: Text)
    requires Distinct(rs) && Find(Keep(rs, index), id).Some?
    ensures Find(Keep(rs, index), id) == Find(rs, id)
  {
    KeepDistinct(rs, index);
    FindIs(rs, Find(Keep(rs, index), id).value);
  }

  lemma {:induction false} WithoutFinds(rs: seq<Run>, gone: Text, id: Text)
    requires Distinct(rs) && gone != id
    ensures Find(WithoutRun(rs, gone), id) == Find(rs, id)
  {
    WithoutRunDistinct(rs, gone);
    if Find(rs, id).Some? { FindIs(WithoutRun(rs, gone), Find(rs, id).value); }
  }

  lemma {:induction false} AcceptFinds(s: State, value: Run, id: Text)
    requires Distinct(s.runs) && Acceptable(s, value)
    ensures value.runId == id ==> Find(Accept(s, value).runs, id) == Some(value)
    ensures value.runId != id ==> Find(Accept(s, value).runs, id).None?
                                  || Find(Accept(s, value).runs, id) == Find(s.runs, id)
  {
    hide Acceptable, Matches;
    var rest := WithoutRun(s.runs, value.runId);
    var all := [value] + rest;
    WithoutRunDistinct(s.runs, value.runId);
    assert Distinct(all) by {
      forall i | 0 < i < |all| ensures all[i].runId != value.runId { assert all[i] in rest; }
    }
    KeepDistinct(all, 0);
    if value.runId == id {
      FindIs(Keep(all, 0), value);
    } else if Find(Keep(all, 0), id).Some? {
      KeepFinds(all, 0, id);
      assert all[1..] == rest;
      WithoutFinds(s.runs, value.runId, id);
    }
  }

  /** Taking in a record puts the history copy back exactly when it is older than that copy. */
  lemma {:induction false} AcceptGoesBackIff(s: State, value: Run, id: Text)
    requires Inv(s)
    ensures GoesBack(s, Accept(s, value), id)
            <==> s.run.Some? && s.run.value.runId == id && value.runId == id && Acceptable(s, value)
                 && Find(s.runs, id).Some? && value.revision < Find(s.runs, id).value.revision
  {
    hide Matches, Accept, Extends;
    if Acceptable(s, value) {
      AcceptFinds(s, value, id);
    } else {
      assert Accept(s, value) == s by { AcceptRefused(s, value); }
    }
  }

  lemma AcceptRefused(s: State, value: Run)
    requires !Acceptable(s, value)
    ensures Accept(s, value) == s
  {
  }

  lemma {:induction false} PrepareGoesForward(s: State, value: Run, id: Text)
    requires Inv(s)
    ensures !GoesBack(s, Accept(s.(run := None), value), id)
  {
    hide Matches, Accept, Extends;
    var base := s.(run := None);
    if Acceptable(base, value) { AcceptFinds(base, value, id); } else { AcceptRefused(base, value); }
  }

  lemma {:induction false} StopGoesBackIff(s: State, expected: Run, value: Run, id: Text)
    requires Inv(s) && !s.disposed && Matches(value, expected)
    ensures GoesBack(s, AcceptStop(s, expected, value), id)
            <==> s.run.Some? && s.run.value.runId == expected.runId && GoesBack(s, Accept(s, value), id)
  {
    hide Accept, Extends;
    assert value.runId == expected.runId;
    hide Matches;
    if !(s.run.Some? && s.run.value.runId == expected.runId) {
      ReplaceFindsAt(s.runs, value, id);
    }
  }

  lemma {:induction false} ReplaceFindsAt(rs: seq<Run>, value: Run, id: Text)
    requires Distinct(rs)
    ensures Find(Replace(rs, value), id)
            == if id == value.runId && Find(rs, id).Some? then Some(value) else Find(rs, id)
  {
    if rs != [] {
      assert Replace(rs, value)[1..] == Replace(rs[1..], value);
      ReplaceFindsAt(rs[1..], value, id);
    }
  }

  lemma {:induction false} ActionGoesBackIff(s: State, action: Action, value: Run, id: Text)
    requires Inv(s) && !s.disposed
    ensures GoesBack(s, AcceptAction(s, action, value), id)
            <==> OfferedBy(s, action, value).Some? && GoesBack(s, Accept(s, OfferedBy(s, action, value).value), id)
  {
    hide Accept, Inv;
    match action {
      case Prepare => PrepareGoesForward(s, value, id);
      case _ =>
    }
  }

  // ---------- a listing ----------

  lemma {:induction false} ListedFinds(s: State, listing: seq<Run>, id: Text)
    requires Inv(s) && Merge(s, listing).Some? && Distinct(listing)
    ensures var merged := MergedItems(s, listing);
            && (Find(merged, id).Some? <==> Find(listing, id).Some?)
            && (Find(merged, id).Some? && Find(s.runs, id).Some? ==>
                  Find(s.runs, id).value.revision <= Find(merged, id).value.revision)
  {
    hide Extends, Matches;
    var merged := MergedItems(s, listing);
    MergedItemsDistinct(s, listing);
    assert forall i :: 0 <= i < |listing| ==> merged[i].runId == listing[i].runId;
    if Find(merged, id).Some? {
      var i :| 0 <= i < |merged| && merged[i] == Find(merged, id).value;
      assert listing[i].runId == id;
    }
    if Find(listing, id).Some? {
      var i :| 0 <= i < |listing| && listing[i] == Find(listing, id).value;
      assert merged[i].runId == id;
    }
  }

  lemma {:induction false} RetainFinds(known: seq<Run>, acc: seq<Run>, id: Text)
    requires Distinct(known) && Distinct(acc)
    ensures Find(acc, id).Some? ==> Find(Retain(known, acc), id) == Find(acc, id)
    ensures Find(acc, id).None? ==>
              Find(Retain(known, acc), id) == if Find(known, id).Some?
                  && NeedsResolution(Find(known, id).value) then Find(known, id) else None
  {
    RetainKeeps(known, acc);
    hide Retain, NeedsResolution;
    var all := Retain(known, acc);
    if Find(acc, id).Some? { FindIs(all, Find(acc, id).value); }
    else {
      if Find(all, id).Some? { FindIs(known, Find(all, id).value); }
    }
  }

  /**
   A listing puts the history copy back exactly when it names the run not, the copy is settled and
   the selected copy is older.
   */
  lemma {:induction false} ListingGoesBackIff(s: State, listing: seq<Run>, id: Text)
    requires Inv(s) && Distinct(listing) && Merge(s, listing).Some?
    ensures GoesBack(s, Merge(s, listing).value, id)
            <==> s.run.Some? && s.run.value.runId == id && Find(s.runs, id).Some? && Find(listing, id).None?
                 && !NeedsResolution(Find(s.runs, id).value) && s.run.value.revision < Find(s.runs, id).value.revision
  {
    var merged := MergedItems(s, listing);
    MergedItemsDistinct(s, listing);
    ListedFinds(s, listing, id);
    RetainFinds(s.runs, merged, id);
    hide Retain, NeedsResolution, Extends, MergeItem, MergedItems;
    var retained, t := Retain(s.runs, merged), Merge(s, listing).value;
    assert t.runs == if s.run.Some? && Find(retained, s.run.value.runId).None? then [s.run.value] + retained
                     else retained
      by { MergeRuns(s, listing); }
    if t.runs != retained { assert t.runs[1..] == retained; }
  }

  lemma MergeRuns(s: State, listing: seq<Run>)
    requires Merge(s, listing).Some?
    ensures var retained := Retain(s.runs, MergedItems(s, listing));
            Merge(s, listing).value.runs
            == if s.run.Some? && Find(retained, s.run.value.runId).None? then [s.run.value] + retained else retained
  {
  }

  // ---------- one step ----------

  /** One step puts the history copy of a run back exactly under that condition. */
  lemma {:induction false} HistoryGoesBackIff(s: State, e: Step, id: Text)
    requires Inv(s) && Decoded(e)
    ensures GoesBack(s, Next(s, e), id) <==> TakesBack(s, e, id)
  {
    hide Accept, Acceptable, Inv, Merge, NeedsResolution, AcceptStop, AcceptAction, Find, OfferedBy;
    if Offered(s, e).Some? { AcceptGoesBackIff(s, Offered(s, e).value, id); }
    match e {
      case ListingArrives(listing) =>
        if listing.Some? && s.reading.Listing? && !s.disposed && Merge(s, listing.value).Some? {
          ListingGoesBackIff(s, listing.value, id);
        }
      case ExactArrives(value) =>
        if s.reading.Exact? && value.Some? { AcceptAnyReading(s, value.value); }
      case StopArrives(value) =>
        if s.stop.Some? && value.Some? {
          hide Matches;
          if s.disposed || !Matches(value.value, s.stop.value) {
            StopRefused(s, s.stop.value, value.value);
          } else {
            StopGoesBackIff(s, s.stop.value, value.value, id);
          }
        }
      case ActionArrives(value) =>
        hide Matches;
        if s.action.Some? && value.Some? {
          if s.disposed {
            DisposedKeeps(s, s.action.value, value.value);
          } else {
            ActionGoesBackIff(s, s.action.value, value.value, id);
          }
        }
      case _ =>
    }
  }

  lemma StopRefused(s: State, expected: Run, value: Run)
    requires s.disposed || !Matches(value, expected)
    ensures AcceptStop(s, expected, value) == s
  {
  }

  lemma DisposedKeeps(s: State, action: Action, value: Run)
    requires s.disposed
    ensures AcceptAction(s, action, value) == s
  {
    hide Accept;
  }

  lemma AcceptAnyReading(s: State, value: Run)
    ensures Accept(s.(reading := Idle), value).runs == Accept(s, value).runs
  {
    hide Matches;
  }

  // ---------- a run in which it happens ----------

  /** A listing brings a newer copy of the selected run, and the exact read one between the two. */
  function Overtaken(first: Run, between: Run, newest: Run): seq<Step> {
    [StartRefresh, ListingArrives(Some([first])), ExactArrives(None), StartRefresh, ListingArrives(Some([newest])),
     ExactArrives(Some(between))]
  }

  lemma {:induction false} FirstListing(r: Run)
    requires NeedsResolution(r)
    ensures Next(Initial.(reading := Listing), ListingArrives(Some([r]))) == State([r], Some(r), false, Exact(r), None,
                None)
  {
    var s := Initial.(reading := Listing);
    assert [r][1..] == [];
    assert MergedItems(s, [r]) == [r];
    assert Retain([], [r]) == [r];
  }

  lemma {:induction false} NextListing(r: Run, q: Run)
    requires NeedsResolution(r) && NeedsResolution(q) && Matches(q, r) && q.revision > r.revision
    ensures Next(State([r], Some(r), false, Listing, None, None), ListingArrives(Some([q])))
            == State([q], Some(r), false, Exact(r), None, None)
  {
    var s := State([r], Some(r), false, Listing, None, None);
    assert q.runId == r.runId;
    hide Matches, NeedsResolution;
    assert [r][1..] == [] && [q][1..] == [];
    assert MergedItems(s, [q]) == [q];
    assert Retain([r], [q]) == [q] by { assert Retain([], [q]) == [q]; }
  }

  lemma {:induction false} ExactTaken(r: Run, q: Run, v: Run)
    requires v.runId == r.runId == q.runId && Matches(v, r) && v.revision >= r.revision
    ensures Next(State([q], Some(r), false, Exact(r), None, None), ExactArrives(Some(v))) == State([v], Some(v), false,
                Idle, None, None)
  {
    hide Matches;
    assert [q][1..] == [] && [v][1..] == [];
    assert WithoutRun([q], v.runId) == [];
    assert Keep([v], 0) == [v] by { assert Keep([], 1) == []; }
  }

  /** The exact read is taken in, and the history copy goes back from the newest to the one between. */
  lemma {:induction false} HistoryMayGoBack(first: Run, between: Run, newest: Run)
    requires NeedsResolution(first) && NeedsResolution(newest) && Matches(between, first) && Matches(newest, first)
    requires first.revision < between.revision < newest.revision
    ensures var steps := Overtaken(first, between, newest);
            && DecodedAll(steps) && After(steps, 5).runs == [newest] && After(steps, 6).runs == [between]
            && GoesBack(After(steps, 5), After(steps, 6), first.runId)
  {
    var steps := Overtaken(first, between, newest);
    assert between.runId == first.runId && newest.runId == first.runId;
    hide Matches, NeedsResolution;
    FirstListing(first);
    NextListing(first, newest);
    ExactTaken(first, newest, between);
    hide Merge, Accept;
    assert After(steps, 1) == Initial.(reading := Listing);
    assert After(steps, 2) == State([first], Some(first), false, Exact(first), None, None);
    assert After(steps, 3) == State([first], Some(first), false, Idle, None, None);
    assert After(steps, 4) == State([first], Some(first), false, Listing, None, None);
    assert After(steps, 5) == State([newest], Some(first), false, Exact(first), None, None);
    assert After(steps, 6) == State([between], Some(between), false, Idle, None, None);
  }

  // ---------- with records the contract accepts ----------

  function Draft(revision: nat): Run { RunDepth.DeepRun(0).(revision := revision) }

  lemma DraftAcceptable(revision: nat)
    requires revision <= 3
    ensures RunDepth.Acceptable(Draft(revision)) && RunDepth.WellShaped(Draft(revision))
            && NeedsResolution(Draft(revision))
    ensures RunDepth.Depth(Draft(revision).events[0].detail) == 0 && |Draft(revision).events| == 1
  {
    RunDepth.DeepRunAcceptable(0);
    RunDepth.DeepRunShaped(0);
    hide RunDepth.PlainRecord, RunDepth.CheckedRecord;
    DraftKeeps(revision);
  }

  lemma DraftKeeps(revision: nat)
    requires revision <= 3 && RunDepth.Acceptable(RunDepth.DeepRun(0))
    ensures RunDepth.Acceptable(Draft(revision))
  {
    hide RunDepth.DeepRun;
  }

  lemma {:induction false} VersionMatches(h: Hash, a: Run, b: Run)
    requires Normalized(h, a) && (forall i :: 0 <= i < |a.events| ==>
                                                RunDepth.Depth(a.events[i].detail) < COMPARE_DEPTH)
    requires b == a.(revision := b.revision, runDigest := b.runDigest) && b.revision > a.revision
    ensures Matches(b, a)
  {
    RunDepth.ReflexiveIffShallow(h, a);
    hide Normalized;
  }

  /** Sealed copies of one record at three revisions are such records. */
  lemma {:induction false} GoesBackWithBelievedRecords(h: Hash)
    requires RunDepth.HexHash(h)
    ensures exists a, b, c ::
      && (forall r :: r in [a, b, c] ==> RunDepth.WellShaped(r) && Normalized(h, r))
      && GoesBack(After(Overtaken(a, b, c), 5), After(Overtaken(a, b, c), 6), a.runId)
  {
    var a := Sealing(h, 1);
    var b := Sealing(h, 2);
    var c := Sealing(h, 3);
    hide RunDepth.WellShaped, Normalized, Draft, NeedsResolution, Matches, After, Overtaken;
    VersionMatches(h, a, b);
    VersionMatches(h, a, c);
    HistoryMayGoBack(a, b, c);
  }

  lemma {:induction false} Sealing(h: Hash, revision: nat) returns (r: Run)
    requires RunDepth.HexHash(h) && revision <= 3
    ensures RunDepth.WellShaped(r) && Normalized(h, r) && NeedsResolution(r) && r.revision == revision
    ensures r == Draft(0).(revision := revision, runDigest := r.runDigest)
    ensures forall i :: 0 <= i < |r.events| ==> RunDepth.Depth(r.events[i].detail) < COMPARE_DEPTH
  {
    DraftAcceptable(revision);
    hide RunDepth.DeepRun, IsHash, IsRunId, IsId, Body, RunDepth.Acceptable, Normalized, RunDepth.HexHash;
    RunDepth.SealingBelieved(h, Draft(revision));
    r := SealRun(h, Draft(revision)).value;
    assert IsHash(r.runDigest) by { SealShaped(h, Draft(revision)); }
  }

  lemma SealShaped(h: Hash, r: Run)
    requires RunDepth.HexHash(h) && SealRun(h, r).Some?
    ensures IsHash(SealRun(h, r).value.runDigest)
  {
    hide IsHash, Body;
  }
}
