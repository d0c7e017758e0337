/**
 The execution controller as a state machine: every await is a step boundary, and a
 response may arrive after any number of other steps, or as a failure.
 */
module ExecutionProtocol {
  import opened Options
  import opened Texts
  import opened RunContract

  predicate NeedsResolution(r: Run) {
    !Terminal(r.phase) || r.stopStatus.StopUnconfirmed?
  }

  /** A refresh awaits the status and the listing, then the exact run. */
  datatype Reading = Idle | Listing | Exact(expected: Run)

  datatype Action = Select(known: Run) | Receipt(known: Run) | Prepare | Act(expected: Run)

  /** The closure fields of the controller that carry run evidence, and its requests in flight. */
  datatype State = State(
    runs: seq<Run>, run: Option<Run>, disposed: bool,
    reading: Reading, stop: Option<Run>, action: Option<Action>)

  const Initial := State([], None, false, Idle, None, None)

  /**
   A response of None is a failure: a lost, rejected or undecodable one. `ready` stands for the
   checks of freshness, route and configuration that guard an operator request; what the request
   itself names is compared with the selected run.
   */
  datatype Step =
    | StartRefresh
    | ListingArrives(listing: Option<seq<Run>>)
    | ExactArrives(value: Option<Run>)
    | StartStop(id: Text)
    | StopArrives(value: Option<Run>)
    | StartSelect(id: Text)
    | StartReceipt(id: Text)
    | StartPrepare(ready: bool)
    | StartApprove(id: Text, runDigest: Text, approvalDigest: Text, approved: bool, ready: bool, now: int)
    | StartReconcile(id: Text, runDigest: Text, ready: bool)
    | ActionArrives(value: Option<Run>)
    | Dispose

  const MAX_HISTORY := 128

  /** The history cap: beyond it only runs that need resolution stay. */
  function Keep(rs: seq<Run>, index: nat): (r: seq<Run>)
    ensures forall x :: x in r ==> x in rs
    ensures forall x :: x in rs && NeedsResolution(x) ==> x in r
  {
    if rs == [] then []
    else (if index < MAX_HISTORY || NeedsResolution(rs[0]) then [rs[0]] else []) + Keep(rs[1..], index + 1)
  }

  /** The copy an arriving record is compared with. */
  function Known(s: State, id: Text): Option<Run> {
    if s.run.Some? && s.run.value.runId == id then s.run else Find(s.runs, id)
  }

  predicate Acceptable(s: State, value: Run) {
    var known := Known(s, value.runId);
    known.Some? ==> value.revision >= known.value.revision && Matches(value, known.value)
  }

  function Accept(s: State, value: Run): State {
    if Acceptable(s, value) then
      s.(run := Some(value), runs := Keep([value] + WithoutRun(s.runs, value.runId), 0))
    else s
  }

  function MergeItem(known: seq<Run>, item: Run): Option<Run> {
    var previous := Find(known, item.runId);
    if previous.Some? && item.revision < previous.value.revision then previous
    else if previous.Some? && !Matches(item, previous.value) then None
    else Some(item)
  }

  function Retain(known: seq<Run>, acc: seq<Run>): seq<Run> {
    if known == [] then acc
    else
      Retain(known[1..], if NeedsResolution(known[0]) && Find(acc, known[0].runId).None? then acc + [known[0]] else acc)
  }

  function FirstUnresolved(rs: seq<Run>): (r: Option<Run>)
    ensures r.Some? ==> r.value in rs && NeedsResolution(r.value)
    ensures r.None? ==> forall x :: x in rs ==> !NeedsResolution(x)
  {
    if rs == [] then None else if NeedsResolution(rs[0]) then Some(rs[0]) else FirstUnresolved(rs[1..])
  }

  /** A listing replaces the history, except that no known unresolved run and no selected run drops out. */
  function Merge(s: State, listing: seq<Run>): Option<State> {
    if forall i :: 0 <= i < |listing| ==> MergeItem(s.runs, listing[i]).Some? then
      var merged := seq(|listing|, i requires 0 <= i < |listing| => MergeItem(s.runs, listing[i]).value);
      var retained := Retain(s.runs, merged);
      var runs := if s.run.Some? && Find(retained, s.run.value.runId).None? then [s.run.value] + retained else retained;
      Some(s.(runs := runs, run := if s.run.Some? then s.run else FirstUnresolved(runs)))
    else None
  }

  /** A Stop answered for a run that is not selected updates only its history entry. */
  function Replace(rs: seq<Run>, value: Run): seq<Run> {
    seq(|rs|, i requires 0 <= i < |rs| => if rs[i].runId == value.runId then value else rs[i])
  }

  function AcceptStop(s: State, expected: Run, value: Run): State {
    if s.disposed || !Matches(value, expected) then s
    else if s.run.Some? && s.run.value.runId == expected.runId then Accept(s, value)
    else
      var latest := Find(s.runs, expected.runId);
      if latest.Some? && value.revision >= latest.value.revision && Matches(value, latest.value)
      then s.(runs := Replace(s.runs, value)) else s
  }

  function AcceptAction(s: State, action: Action, value: Run): State {
    if s.disposed then s
    else
      match action
      case Select(known) =>
        var latest := Find(s.runs, known.runId);
        Accept(s, if latest.Some? && latest.value.revision > value.revision then latest.value else value)
      case Receipt(_) => if s.run.Some? && s.run.value.runId == value.runId then Accept(s, value) else s
      case Prepare => Accept(s.(run := None), value)
      case Act(expected) => if s.run.Some? && s.run.value.runId == expected.runId then Accept(s, value) else s
  }

  /** One step; a step whose request may not start, or whose response is not awaited, changes nothing. */
  function Next(s: State, e: Step): State {
    match e
    case StartRefresh => if s.disposed || !s.reading.Idle? then s else s.(reading := Listing)
    case ListingArrives(listing) =>
      if !s.reading.Listing? then s
      else if s.disposed || listing.None? || Merge(s, listing.value).None? then s.(reading := Idle)
      else
        var merged := Merge(s, listing.value).value;
        merged.(reading := if merged.run.Some? then Exact(merged.run.value) else Idle)
    case ExactArrives(value) =>
      if !s.reading.Exact? then s
      else
        var done := s.(reading := Idle);
        if s.disposed || value.None? || s.run.None? || s.run.value.runId != s.reading.expected.runId then done
        else Accept(done, value.value)
    case StartStop(id) =>
      var expected := Known(s, id);
      if s.disposed || s.stop.Some? || expected.None? || !NeedsResolution(expected.value) then s
      else s.(stop := expected)
    case StopArrives(value) =>
      if s.stop.None? then s
      else (if value.None? then s else AcceptStop(s, s.stop.value, value.value)).(stop := None)
    case StartSelect(id) => StartOn(s, id, true)
    case StartReceipt(id) => StartOn(s, id, false)
    case StartPrepare(ready) =>
      if MayAct(s) && ready && !AnyUnresolved(s) then s.(action := Some(Prepare)) else s
    case StartApprove(id, runDigest, approvalDigest, approved, ready, now) =>
      if MayAct(s) && Named(s, id, runDigest) && ready && MayApprove(s.run.value, approvalDigest, approved, now)
      then s.(action := Some(Act(s.run.value))) else s
    case StartReconcile(id, runDigest, ready) =>
      if MayAct(s) && Named(s, id, runDigest) && ready && s.run.value.phase.OutcomeUnknown?
      then s.(action := Some(Act(s.run.value))) else s
    case ActionArrives(value) =>
      if s.action.None? then s
      else (if value.None? then s else AcceptAction(s, s.action.value, value.value)).(action := None)
    case Dispose => s.(disposed := true)
  }

  predicate AnyUnresolved(s: State) {
    (s.run.Some? && NeedsResolution(s.run.value)) || FirstUnresolved(s.runs).Some?
  }

  /** The request names the selected run as it is shown. */
  predicate Named(s: State, id: Text, runDigest: Text) {
    s.run.Some? && s.run.value.runId == id && s.run.value.runDigest == runDigest
  }

  predicate MayApprove(r: Run, approvalDigest: Text, approved: bool, now: int) {
    && r.phase.WaitingForApproval? && r.stopStatus.NotRequested? && r.approval.approvedAt.None?
    && r.approval.expiresAt > now && approved && approvalDigest == r.approval.digest
  }

  predicate MayAct(s: State) { !s.disposed && s.action.None? && s.stop.None? }

  function StartOn(s: State, id: Text, select: bool): State {
    var known := Find(s.runs, id);
    if !MayAct(s) || known.None? then s
    else s.(action := Some(if select then Select(known.value) else Receipt(known.value)))
  }

  // ---------- what every step keeps ----------

  /** Ids are listed once, and the history copy of the selected run extends the selected copy. */
  ghost predicate Inv(s: State) {
    && Distinct(s.runs)
    && (s.run.Some? ==> Find(s.runs, s.run.value.runId).Some?
                        && Extends(Find(s.runs, s.run.value.runId).value, s.run.value))
  }

  /** What the client's decoder guarantees: a listing names each run once. */
  ghost predicate Decoded(e: Step) {
    e.ListingArrives? && e.listing.Some? ==> Distinct(e.listing.value)
  }

  lemma {:induction false} KeepDistinct(rs: seq<Run>, index: nat)
    requires Distinct(rs)
    ensures Distinct(Keep(rs, index))
    ensures rs != [] && index < MAX_HISTORY ==> Keep(rs, index) != [] && Keep(rs, index)[0] == rs[0]
  {
    if rs != [] {
      KeepDistinct(rs[1..], index + 1);
      var rest := Keep(rs[1..], index + 1);
      forall i | 0 <= i < |rest| ensures rest[i].runId != rs[0].runId { assert rest[i] in rs[1..]; }
    }
  }

  lemma AcceptKeeps(s: State, value: Run)
    requires Distinct(s.runs)
    ensures Acceptable(s, value) ==> Inv(Accept(s, value)) && Find(Accept(s, value).runs, value.runId) == Some(value)
  {
    if Acceptable(s, value) {
      WithoutRunDistinct(s.runs, value.runId);
      var history := [value] + WithoutRun(s.runs, value.runId);
      forall i | 0 < i < |history| ensures history[i].runId != value.runId {
        assert history[i] in WithoutRun(s.runs, value.runId);
      }
      KeepDistinct(history, 0);
      FindIs(Keep(history, 0), value);
    }
  }

  lemma {:induction false} RetainKeeps(known: seq<Run>, acc: seq<Run>)
    requires Distinct(acc)
    ensures Distinct(Retain(known, acc))
    ensures forall r :: r in acc ==> r in Retain(known, acc)
    ensures forall r :: r in Retain(known, acc) ==> r in acc
                                                    || (r in known && NeedsResolution(r) && Find(acc, r.runId).None?)
    ensures forall r :: r in known && NeedsResolution(r) ==> Find(Retain(known, acc), r.runId).Some?
    decreases known
  {
    if known != [] {
      var grown := if NeedsResolution(known[0]) && Find(acc, known[0].runId).None? then acc + [known[0]] else acc;
      assert forall i :: 0 <= i < |acc| && grown != acc ==> acc[i].runId != known[0].runId;
      RetainKeeps(known[1..], grown);
      var result := Retain(known, acc);
      forall r | r in known && NeedsResolution(r) ensures Find(result, r.runId).Some? {
        if r == known[0] {
          var held := if Find(acc, r.runId).Some? then Find(acc, r.runId).value else r;
          assert held in grown && held in result;
        }
      }
      assert forall x :: x in acc ==> x in grown;
      forall r | r in result && r !in acc ensures r in known && NeedsResolution(r) && Find(acc, r.runId).None? {
        if r in grown {
          assert r == known[0];
        }
      }
    }
  }

  function MergedItems(s: State, listing: seq<Run>): seq<Run>
    requires Merge(s, listing).Some?
  {
    seq(|listing|, i requires 0 <= i < |listing| => MergeItem(s.runs, listing[i]).value)
  }

  lemma MergedItemsDistinct(s: State, listing: seq<Run>)
    requires Merge(s, listing).Some? && Distinct(listing)
    ensures Distinct(MergedItems(s, listing))
  {
    var merged := MergedItems(s, listing);
    assert forall i :: 0 <= i < |merged| ==> merged[i].runId == listing[i].runId;
  }

  lemma MergeInv(s: State, listing: seq<Run>)
    requires Inv(s) && Merge(s, listing).Some? && Distinct(listing)
    ensures Inv(Merge(s, listing).value)
  {
    var t := Merge(s, listing).value;
    var merged := MergedItems(s, listing);
    MergedItemsDistinct(s, listing);
    RetainKeeps(s.runs, merged);
    assert Distinct(t.runs);
    if s.run.Some? {
      MergedSelected(s, listing);
    } else if t.run.Some? {
      FindIs(t.runs, t.run.value);
    }
  }

  /** A merged history holds listed items and copies that were held before. */
  lemma MergeOrigin(s: State, listing: seq<Run>, r: Run)
    requires Merge(s, listing).Some? && Distinct(listing) && r in Merge(s, listing).value.runs
    ensures r in listing || r in s.runs || Some(r) == s.run
  {
    MergedItemsDistinct(s, listing);
    RetainKeeps(s.runs, MergedItems(s, listing));
  }

  /** A listed item that enters a merged history extends the copy it replaces. */
  lemma MergeMatches(s: State, listing: seq<Run>, r: Run)
    requires Inv(s) && Merge(s, listing).Some? && Distinct(listing) && r in Merge(s, listing).value.runs
    requires r !in s.runs && Some(r) != s.run && Find(s.runs, r.runId).Some?
    ensures Matches(r, Find(s.runs, r.runId).value)
  {
    hide Matches, Extends, NeedsResolution, MergeItem, Retain;
    var merged := MergedItems(s, listing);
    MergedItemsDistinct(s, listing);
    RetainKeeps(s.runs, merged);
    var i :| 0 <= i < |listing| && merged[i] == r;
    ItemMatches(s.runs, listing[i]);
  }

  lemma ItemMatches(known: seq<Run>, item: Run)
    ensures var r := MergeItem(known, item);
            && (r.Some? ==> r.value.runId == item.runId)
            && (r.Some? && r.value !in known && Find(known, item.runId).Some? ==>
                  Matches(r.value, Find(known, item.runId).value))
  {
    hide Matches;
  }

  /** A known unresolved run stays, or a listed item takes its place. */
  lemma MergeRetains(s: State, listing: seq<Run>, r: Run)
    requires Inv(s) && Merge(s, listing).Some? && Distinct(listing) && r in s.runs && NeedsResolution(r)
    ensures exists kept :: kept in Merge(s, listing).value.runs && kept.runId == r.runId
                           && (kept == r || kept in listing)
  {
    var merged := MergedItems(s, listing);
    MergedItemsDistinct(s, listing);
    RetainKeeps(s.runs, merged);
    var kept := Find(Retain(s.runs, merged), r.runId).value;
    assert kept in Merge(s, listing).value.runs;
    FindIs(s.runs, r);
    if kept in s.runs { FindIs(s.runs, kept); }
  }

  /** The history copy of the selected run still extends the selected copy after a listing. */
  lemma MergedSelected(s: State, listing: seq<Run>)
    requires Inv(s) && Merge(s, listing).Some? && Distinct(listing) && s.run.Some?
    ensures var c := Find(Merge(s, listing).value.runs, s.run.value.runId);
            c.Some? && Extends(c.value, s.run.value)
  {
    var id := s.run.value.runId;
    var merged := MergedItems(s, listing);
    var retained := Retain(s.runs, merged);
    MergedItemsDistinct(s, listing);
    RetainKeeps(s.runs, merged);
    var c := Find(retained, id);
    if c.Some? {
      if c.value in merged {
        var i :| 0 <= i < |listing| && merged[i] == c.value;
        ExtendsTransitive(c.value, Find(s.runs, id).value, s.run.value);
      } else {
        FindIs(s.runs, c.value);
      }
    }
  }

  // ---------- one step ----------

  predicate Held(s: State, r: Run) { r in s.runs || s.run == Some(r) }

  predicate Delivered(e: Step, r: Run) {
    match e
    case ListingArrives(listing) => listing.Some? && r in listing.value
    case ExactArrives(value) => value == Some(r)
    case StopArrives(value) => value == Some(r)
    case ActionArrives(value) => value == Some(r)
    case _ => false
  }

  /** `unresolvedRuns()` contains the id: some held copy of it needs resolution. */
  ghost predicate Unresolved(s: State, id: Text) {
    exists r :: Held(s, r) && r.runId == id && NeedsResolution(r)
  }

  lemma AcceptHolds(s: State, value: Run)
    requires Distinct(s.runs) && Acceptable(s, value)
    ensures forall r :: r in Accept(s, value).runs ==> r == value || r in s.runs
    ensures forall r :: r in s.runs && r.runId != value.runId && NeedsResolution(r) ==> r in Accept(s, value).runs
    ensures value in Accept(s, value).runs
    ensures forall r :: r in Accept(s, value).runs && r.runId == value.runId ==> r == value
  {
    AcceptKeeps(s, value);
    var rest := WithoutRun(s.runs, value.runId);
    var history := [value] + rest;
    assert forall r :: r in history <==> r == value || r in rest;
  }

  lemma {:induction false} ReplaceFinds(rs: seq<Run>, value: Run)
    requires Distinct(rs)
    ensures Distinct(Replace(rs, value))
    ensures forall r :: r in Replace(rs, value) ==> r == value || (r in rs && r.runId != value.runId)
    ensures forall r :: r in rs && r.runId != value.runId ==> r in Replace(rs, value)
    ensures forall r :: r in rs && r.runId == value.runId ==> value in Replace(rs, value)
  {
    var t := Replace(rs, value);
    forall r | r in rs && r.runId != value.runId ensures r in t {
      var i :| 0 <= i < |rs| && rs[i] == r;
      assert t[i] == r;
    }
    forall r | r in rs && r.runId == value.runId ensures value in t {
      var i :| 0 <= i < |rs| && rs[i] == r;
      assert t[i] == value;
    }
  }

  lemma AcceptInv(s: State, value: Run)
    requires Inv(s)
    ensures Inv(Accept(s, value)) && Inv(Accept(s.(run := None), value))
  {
    AcceptKeeps(s, value);
    AcceptKeeps(s.(run := None), value);
  }

  lemma StopInv(s: State, expected: Run, value: Run)
    requires Inv(s)
    ensures Inv(AcceptStop(s, expected, value))
  {
    AcceptInv(s, value);
    ReplaceFinds(s.runs, value);
    if s.run.Some? && s.run.value.runId != value.runId {
      var c := Find(s.runs, s.run.value.runId).value;
      FindIs(Replace(s.runs, value), c);
    }
  }

  lemma ActionInv(s: State, action: Action, value: Run)
    requires Inv(s)
    ensures Inv(AcceptAction(s, action, value))
  {
    AcceptInv(s, value);
    if action.Select? && Find(s.runs, action.known.runId).Some? {
      AcceptInv(s, Find(s.runs, action.known.runId).value);
    }
  }

  lemma NextInv(s: State, e: Step)
    requires Inv(s) && Decoded(e)
    ensures Inv(Next(s, e))
  {
    match e
    case ListingArrives(listing) =>
      if listing.Some? && Merge(s, listing.value).Some? { MergeInv(s, listing.value); }
    case ExactArrives(value) => if value.Some? { AcceptInv(s.(reading := Idle), value.value); }
    case StopArrives(value) => if s.stop.Some? && value.Some? { StopInv(s, s.stop.value, value.value); }
    case ActionArrives(value) => if s.action.Some? && value.Some? { ActionInv(s, s.action.value, value.value); }
    case _ =>
  }

  /** Everything newly held was delivered by this step, and extends a held copy of the same run if there is one. */
  ghost predicate Sound(s: State, t: State, r: Run, delivered: bool) {
    Held(t, r) && !Held(s, r) ==>
      delivered && ((exists p :: Held(s, p) && p.runId == r.runId) ==>
                      exists p :: Held(s, p) && p.runId == r.runId && Matches(r, p))
  }

  lemma AcceptSound(s: State, base: State, value: Run, r: Run)
    requires Inv(s) && (base == s || base == s.(run := None))
    ensures Sound(s, Accept(base, value), r, r == value)
  {
    if Acceptable(base, value) && Held(Accept(base, value), r) && !Held(s, r) {
      AcceptHolds(base, value);
      if p :| Held(s, p) && p.runId == value.runId {
        assert Find(s.runs, value.runId).Some?;
        assert Held(s, Known(base, value.runId).value);
      }
    }
  }

  lemma StopSound(s: State, expected: Run, value: Run, r: Run)
    requires Inv(s)
    ensures Sound(s, AcceptStop(s, expected, value), r, r == value)
  {
    AcceptSound(s, s, value, r);
    ReplaceFinds(s.runs, value);
  }

  lemma ActionSound(s: State, action: Action, value: Run, r: Run)
    requires Inv(s)
    ensures Sound(s, AcceptAction(s, action, value), r, r == value)
  {
    AcceptSound(s, s, value, r);
    AcceptSound(s, s.(run := None), value, r);
    if action.Select? && Find(s.runs, action.known.runId).Some? {
      AcceptSound(s, s, Find(s.runs, action.known.runId).value, r);
    }
  }

  lemma MergeSound(s: State, listing: seq<Run>, r: Run)
    requires Inv(s) && Merge(s, listing).Some? && Distinct(listing)
    ensures Sound(s, Merge(s, listing).value, r, r in listing)
  {
    var t := Merge(s, listing).value;
    if Held(t, r) && !Held(s, r) {
      assert r in t.runs;
      MergeOrigin(s, listing, r);
      if p :| Held(s, p) && p.runId == r.runId {
        assert Find(s.runs, r.runId).Some?;
        MergeMatches(s, listing, r);
        assert Held(s, Find(s.runs, r.runId).value);
      }
    }
  }

  lemma NextSound(s: State, e: Step, r: Run)
    requires Inv(s) && Decoded(e)
    ensures Sound(s, Next(s, e), r, Delivered(e, r))
  {
    match e
    case ListingArrives(listing) =>
      if listing.Some? && Merge(s, listing.value).Some? { MergeSound(s, listing.value, r); }
    case ExactArrives(value) =>
      if value.Some? { AcceptSound(s.(reading := Idle), s.(reading := Idle), value.value, r); }
    case StopArrives(value) => if s.stop.Some? && value.Some? { StopSound(s, s.stop.value, value.value, r); }
    case ActionArrives(value) => if s.action.Some? && value.Some? { ActionSound(s, s.action.value, value.value, r); }
    case _ =>
  }

  // ---------- no unresolved run is forgotten ----------

  predicate Settled(id: Text, r: Run) { r.runId == id && !NeedsResolution(r) }

  /** A settled record of the run: a new one, or the history copy that already superseded the selected one. */
  ghost predicate Releases(s: State, t: State, id: Text, arrived: set<Run>) {
    exists r :: Settled(id, r) && ((r in arrived && Held(t, r)) || r in s.runs)
  }

  lemma AcceptReleases(s: State, base: State, value: Run, id: Text)
    requires Inv(s) && (base == s || base == s.(run := None))
    requires Unresolved(s, id) && !Unresolved(Accept(base, value), id)
    ensures Releases(s, Accept(base, value), id, {value})
  {
    var t := Accept(base, value);
    if Acceptable(base, value) { AcceptHolds(base, value); }
    var u :| Held(s, u) && u.runId == id && NeedsResolution(u);
    assert Find(s.runs, id).Some?;
    var c := Find(s.runs, id).value;
    assert Held(t, value) && value.runId == id ==> Settled(id, value);
    assert value.runId != id && NeedsResolution(c) ==> Held(t, c);
    if !(Held(t, value) && value.runId == id) { assert Settled(id, c); }
  }

  lemma StopReleases(s: State, expected: Run, value: Run, id: Text)
    requires Inv(s) && Unresolved(s, id) && !Unresolved(AcceptStop(s, expected, value), id)
    ensures Releases(s, AcceptStop(s, expected, value), id, {value})
  {
    var t := AcceptStop(s, expected, value);
    var u :| Held(s, u) && u.runId == id && NeedsResolution(u);
    assert !Held(t, u);
    if t == s {
    } else if t == Accept(s, value) {
      AcceptReleases(s, s, value, id);
    } else {
      ReplaceFinds(s.runs, value);
      assert u.runId != value.runId ==> Held(t, u);
      assert Settled(id, value);
    }
  }

  lemma ActionReleases(s: State, action: Action, value: Run, id: Text)
    requires Inv(s) && Unresolved(s, id) && !Unresolved(AcceptAction(s, action, value), id)
    ensures Releases(s, AcceptAction(s, action, value), id, {value})
  {
    match action
    case Select(known) =>
      var latest := Find(s.runs, known.runId);
      var taken := if latest.Some? && latest.value.revision > value.revision then latest.value else value;
      AcceptReleases(s, s, taken, id);
    case Prepare => AcceptReleases(s, s.(run := None), value, id);
    case _ => AcceptReleases(s, s, value, id);
  }

  lemma MergeReleases(s: State, listing: seq<Run>, id: Text)
    requires Inv(s) && Merge(s, listing).Some? && Distinct(listing)
    requires Unresolved(s, id) && !Unresolved(Merge(s, listing).value, id)
    ensures Releases(s, Merge(s, listing).value, id, set r | r in listing)
  {
    var t := Merge(s, listing).value;
    var u :| Held(s, u) && u.runId == id && NeedsResolution(u);
    assert !Held(t, u);
    if u in s.runs {
      MergeRetains(s, listing, u);
      var kept :| kept in t.runs && kept.runId == u.runId && (kept == u || kept in listing);
      assert Held(t, kept);
      assert Settled(id, kept);
    }
  }

  function Fresh(e: Step): (rs: set<Run>)
    ensures forall r :: r in rs <==> Delivered(e, r)
  {
    match e
    case ListingArrives(Some(listing)) => set r | r in listing
    case ExactArrives(Some(value)) => {value}
    case StopArrives(Some(value)) => {value}
    case ActionArrives(Some(value)) => {value}
    case _ => {}
  }

  lemma SameRunsUnresolved(s: State, t: State, id: Text)
    requires t.runs == s.runs && t.run == s.run
    ensures Unresolved(t, id) <==> Unresolved(s, id)
  {
    assert forall u :: Held(s, u) <==> Held(t, u);
  }

  lemma NextReleases(s: State, e: Step, id: Text)
    requires Inv(s) && Decoded(e) && Unresolved(s, id) && !Unresolved(Next(s, e), id)
    ensures Releases(s, Next(s, e), id, Fresh(e))
  {
    var t := Next(s, e);
    if t.runs == s.runs && t.run == s.run { SameRunsUnresolved(s, t, id); }
    match e
    case ListingArrives(listing) =>
      SameRunsUnresolved(Merge(s, listing.value).value, t, id);
      MergeReleases(s, listing.value, id);
    case ExactArrives(value) =>
      AcceptReleases(s.(reading := Idle), s.(reading := Idle), value.value, id);
    case StopArrives(value) =>
      var u := AcceptStop(s, s.stop.value, value.value);
      SameRunsUnresolved(u, t, id);
      StopReleases(s, s.stop.value, value.value, id);
    case ActionArrives(value) =>
      var u := AcceptAction(s, s.action.value, value.value);
      SameRunsUnresolved(u, t, id);
      ActionReleases(s, s.action.value, value.value, id);
    case _ =>
  }

  /** A preparation is requested only while nothing the controller knows needs resolution. */
  lemma PrepareWhenResolved(s: State, e: Step, id: Text)
    requires s.action != Some(Prepare) && Next(s, e).action == Some(Prepare)
    ensures !Unresolved(s, id)
  {
    assert e.StartPrepare?;
  }

  // ---------- the selected run ----------

  /** The first of a chain of prior revisions: all its immutable parts and its events are kept. */
  lemma AcceptSelected(s: State, base: State, value: Run)
    requires Inv(s) && (base == s || base == s.(run := None)) && s.run.Some?
    requires var t := Accept(base, value); t.run.Some? && t.run.value.runId == s.run.value.runId
    ensures Extends(Accept(base, value).run.value, s.run.value)
  {
    if Acceptable(base, value) && base.run.None? {
      ExtendsTransitive(value, Find(s.runs, value.runId).value, s.run.value);
    }
  }

  /** While one run stays selected, each step leaves its copy or replaces it by one that extends it. */
  lemma NextSelected(s: State, e: Step)
    requires Inv(s) && Decoded(e) && s.run.Some?
    requires Next(s, e).run.Some? && Next(s, e).run.value.runId == s.run.value.runId
    ensures Extends(Next(s, e).run.value, s.run.value)
  {
    match e
    case ExactArrives(value) =>
      if s.reading.Exact? && value.Some? && Next(s, e) == Accept(s.(reading := Idle), value.value) {
        AcceptSelected(s.(reading := Idle), s.(reading := Idle), value.value);
      }
    case ActionArrives(value) =>
      if s.action.Some? && s.action.value.Prepare? && value.Some? && !s.disposed {
        AcceptSelected(s, s.(run := None), value.value);
      }
    case _ =>
  }

  // ---------- whole runs of the controller ----------

  /** The state after the first n steps. */
  function After(steps: seq<Step>, n: nat): State
    requires n <= |steps|
  {
    if n == 0 then Initial else Next(After(steps, n - 1), steps[n - 1])
  }

  ghost predicate DecodedAll(steps: seq<Step>) {
    forall i :: 0 <= i < |steps| ==> Decoded(steps[i])
  }

  lemma {:induction false} ReachableInv(steps: seq<Step>, n: nat)
    requires n <= |steps| && DecodedAll(steps)
    ensures Inv(After(steps, n))
  {
    if n > 0 {
      ReachableInv(steps, n - 1);
      NextInv(After(steps, n - 1), steps[n - 1]);
    }
  }

  /** Step k delivered the record and the controller took it in, over nothing or over a copy that it extends. */
  ghost predicate AcceptedAt(steps: seq<Step>, k: nat, r: Run)
    requires k < |steps|
  {
    && Delivered(steps[k], r)
    && Held(After(steps, k + 1), r)
    && ((exists p :: Held(After(steps, k), p) && p.runId == r.runId) ==>
        exists p :: Held(After(steps, k), p) && p.runId == r.runId && Extends(r, p))
  }

  /** Whatever the controller holds, a response brought. */
  lemma {:induction false} HeldWasAccepted(steps: seq<Step>, n: nat, r: Run)
    requires n <= |steps| && DecodedAll(steps) && Held(After(steps, n), r)
    ensures exists k :: 0 <= k < n && AcceptedAt(steps, k, r)
  {
    if n > 0 {
      if Held(After(steps, n - 1), r) {
        HeldWasAccepted(steps, n - 1, r);
      } else {
        ReachableInv(steps, n - 1);
        NextSound(After(steps, n - 1), steps[n - 1], r);
        assert AcceptedAt(steps, n - 1, r);
      }
    }
  }

  /**
   Step n releases the id by the record r: r is settled, step n delivered it or the history held
   it then, and the controller took it in at step k.
   */
  ghost predicate ReleasedBy(steps: seq<Step>, n: nat, k: nat, r: Run, id: Text)
    requires k <= n < |steps|
  {
    && Unresolved(After(steps, n), id) && !Unresolved(After(steps, n + 1), id)
    && Settled(id, r) && AcceptedAt(steps, k, r)
    && ((k == n && Delivered(steps[n], r)) || r in After(steps, n).runs)
  }

  lemma ReleasedByRecord(steps: seq<Step>, n: nat, id: Text)
    requires n < |steps| && DecodedAll(steps)
    requires Unresolved(After(steps, n), id) && !Unresolved(After(steps, n + 1), id)
    ensures exists k, r :: 0 <= k <= n && ReleasedBy(steps, n, k, r, id)
  {
    var s, t := After(steps, n), After(steps, n + 1);
    ReachableInv(steps, n);
    NextReleases(s, steps[n], id);
    var r :| Settled(id, r) && ((r in Fresh(steps[n]) && Held(t, r)) || r in s.runs);
    if r in s.runs {
      HeldWasAccepted(steps, n, r);
      var k :| 0 <= k < n && AcceptedAt(steps, k, r);
      assert ReleasedBy(steps, n, k, r, id);
    } else {
      NextSound(s, steps[n], r);
      assert Held(s, r) ==> Extends(r, r);
      assert ReleasedBy(steps, n, n, r, id);
    }
  }

  lemma {:induction false} LastBefore(p: nat -> bool, i: nat, j: nat)
    requires i < j && p(i) && !p(j)
    ensures exists n: nat :: i <= n < j && p(n) && !p(n + 1)
    decreases j
  {
    if p(j - 1) { assert !p(j - 1 + 1); } else { LastBefore(p, i, j - 1); }
  }

  /**
   No unresolved run is forgotten, whatever order responses and failures come in: between the two
   moments a step released it, by a settled record which that step delivered or which the history
   held at that step.
   */
  lemma NotForgotten(steps: seq<Step>, i: nat, j: nat, id: Text)
    requires i < j <= |steps| && DecodedAll(steps)
    requires Unresolved(After(steps, i), id) && !Unresolved(After(steps, j), id)
    ensures exists n, k, r :: i <= n < j && 0 <= k <= n && ReleasedBy(steps, n, k, r, id)
  {
    hide *;
    var open := (n: nat) => n <= |steps| && Unresolved(After(steps, n), id);
    LastBefore(open, i, j);
    var n: nat :| i <= n < j && open(n) && !open(n + 1);
    ReleasedByRecord(steps, n, id);
    var k, r :| 0 <= k <= n && ReleasedBy(steps, n, k, r, id);
    assert i <= n < j && 0 <= k <= n && ReleasedBy(steps, n, k, r, id);
  }

  ghost predicate SelectedThroughout(steps: seq<Step>, i: nat, j: nat, id: Text)
    requires i <= j <= |steps|
  {
    forall k :: i <= k <= j ==> After(steps, k).run.Some? && After(steps, k).run.value.runId == id
  }

  lemma SelectedStep(steps: seq<Step>, n: nat, id: Text)
    requires n < |steps| && DecodedAll(steps) && SelectedThroughout(steps, n, n + 1, id)
    ensures Extends(After(steps, n + 1).run.value, After(steps, n).run.value)
  {
    ReachableInv(steps, n);
    var s, t := After(steps, n), After(steps, n + 1);
    assert t == Next(s, steps[n]);
    assert s.run.Some? && s.run.value.runId == id && t.run.Some? && t.run.value.runId == id;
    hide *;
    NextSelected(s, steps[n]);
  }

  lemma {:induction false} ChainExtends(copy: nat -> Run, i: nat, j: nat)
    requires i <= j && forall k: nat :: i <= k < j ==> Extends(copy(k + 1), copy(k))
    ensures Extends(copy(j), copy(i))
    decreases j
  {
    if i < j {
      ChainExtends(copy, i, j - 1);
      assert Extends(copy(j - 1 + 1), copy(j - 1));
      ExtendsTransitive(copy(j), copy(j - 1), copy(i));
    }
  }

  /** The selected run only moves forward: revisions never fall and events are only appended. */
  lemma SelectedMovesForward(steps: seq<Step>, i: nat, j: nat, id: Text)
    requires i <= j <= |steps| && DecodedAll(steps) && SelectedThroughout(steps, i, j, id)
    ensures var a, b := After(steps, i).run.value, After(steps, j).run.value;
            Extends(b, a) && b.revision >= a.revision && |b.events| >= |a.events|
  {
    hide After, Inv;
    var first := After(steps, i).run.value;
    var copy := (k: nat) => if i <= k <= j then After(steps, k).run.value else first;
    forall k: nat | i <= k < j ensures Extends(copy(k + 1), copy(k)) {
      SelectedStep(steps, k, id);
    }
    ChainExtends(copy, i, j);
  }

  /** The copy of the selected run in the history always extends the selected copy. */
  lemma {:induction false} HistoryExtendsSelected(steps: seq<Step>, n: nat)
    requires n <= |steps| && DecodedAll(steps) && After(steps, n).run.Some?
    ensures var s := After(steps, n);
            exists c :: c in s.runs && c.runId == s.run.value.runId && Extends(c, s.run.value)
  {
    ReachableInv(steps, n);
  }
}
