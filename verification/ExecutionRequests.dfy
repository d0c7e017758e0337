/**
 What the execution controller asks for and what its answers do: exactly when a request goes out,
 which copy of a run it is about, and that an answer no older than what is held is taken in.
 */
module ExecutionRequests {
  import opened Options
  import opened Texts
  import opened RunContract
  import opened ExecutionProtocol

  /** The phases in which a run still needs the operator, and a Stop that is not confirmed. */
  predicate Open(r: Run) {
    match r.phase
    case Preparing => true
    case WaitingForApproval => true
    case Ready => true
    case Dispatching => true
    case Running => true
    case Verifying => true
    case OutcomeUnknown => true
    case VerifiedSuccess => r.stopStatus == StopUnconfirmed
    case Failed => r.stopStatus == StopUnconfirmed
    case Cancelled => r.stopStatus == StopUnconfirmed
    case Blocked => r.stopStatus == StopUnconfirmed
  }

  lemma OpenIff(r: Run)
    ensures NeedsResolution(r) <==> Open(r)
  {
  }

  /** A settled record of a run: the run is over, and its Stop is not in doubt. */
  lemma SettledIff(id: Text, r: Run)
    ensures Settled(id, r) <==>
              r.runId == id && r.stopStatus != StopUnconfirmed
              && r.phase in {VerifiedSuccess, Failed, Cancelled, Blocked}
  {
  }

  /** The copy of a run the operator acts on: the selected one, otherwise the one in the history. */
  predicate CopyOf(s: State, id: Text, r: Run) {
    r.runId == id && (s.run == Some(r) || (r in s.runs && !(s.run.Some? && s.run.value.runId == id)))
  }

  lemma KnownIff(s: State, id: Text, r: Run)
    requires Inv(s)
    ensures Known(s, id) == Some(r) <==> CopyOf(s, id, r)
  {
    if r in s.runs { FindIs(s.runs, r); }
  }

  // ---------- requests ----------

  /**
   A Stop goes out exactly when the view is open, no Stop is pending, and the copy of the named run
   still needs one; it is about that copy.
   */
  lemma StopAskedIff(s: State, e: Step, r: Run)
    requires Inv(s) && s.stop.None?
    ensures Next(s, e).stop == Some(r) <==> e.StartStop? && !s.disposed && CopyOf(s, e.id, r) && Open(r)
  {
    if e.StartStop? { KnownIff(s, e.id, r); }
    if Known(s, r.runId).Some? { OpenIff(Known(s, r.runId).value); }
    hide Inv, Accept, Merge, AcceptStop, AcceptAction, NeedsResolution, Known;
    OpenIff(r);
  }

  /** The run selected, as the request describes it. */
  predicate Describes(s: State, e: Step, r: Run)
    requires e.StartApprove? || e.StartReconcile?
  {
    s.run == Some(r) && r.runId == e.id && r.runDigest == e.runDigest
  }

  /** The operator approved the run that is shown, which still waits for it. */
  predicate ApprovalGiven(e: Step, r: Run)
    requires e.StartApprove?
  {
    && e.approved && e.approvalDigest == r.approval.digest && e.ready && e.now < r.approval.expiresAt
    && r.phase == WaitingForApproval && r.stopStatus == NotRequested && r.approval.approvedAt == None
  }

  /** What makes each request go out. */
  ghost predicate Asks(s: State, e: Step, a: Action) {
    match a
    case Select(known) => e.StartSelect? && known in s.runs && known.runId == e.id
    case Receipt(known) => e.StartReceipt? && known in s.runs && known.runId == e.id
    case Prepare => e.StartPrepare? && e.ready && forall r :: r in s.runs || s.run == Some(r) ==> !Open(r)
    case Act(expected) =>
      || (e.StartApprove? && Describes(s, e, expected) && ApprovalGiven(e, expected))
      || (e.StartReconcile? && Describes(s, e, expected) && e.ready && expected.phase == OutcomeUnknown)
  }

  /** A request goes out exactly when nothing is pending, the view is open, and the operator asked for it in full. */
  lemma ActionAskedIff(s: State, e: Step, a: Action)
    requires Inv(s) && s.action.None?
    ensures Next(s, e).action == Some(a) <==> !s.disposed && s.stop.None? && Asks(s, e, a)
  {
    match a {
      case Prepare => NoneOpenIff(s);
      case Select(known) => if known in s.runs { FindIs(s.runs, known); }
      case Receipt(known) => if known in s.runs { FindIs(s.runs, known); }
      case Act(_) =>
    }
    hide Inv, Accept, Merge, AcceptStop, AcceptAction, NeedsResolution, AnyUnresolved, Known, Open;
  }

  lemma NoneOpenIff(s: State)
    ensures AnyUnresolved(s) <==> exists r :: (r in s.runs || s.run == Some(r)) && Open(r)
  {
    forall r ensures NeedsResolution(r) <==> Open(r) { OpenIff(r); }
    hide Open, NeedsResolution;
  }

  /** A refresh is asked for exactly when none is under way; the exact read that follows is of the selected run. */
  lemma ReadAskedIff(s: State, e: Step)
    ensures s.reading.Idle? ==> (!Next(s, e).reading.Idle? <==> e.StartRefresh? && !s.disposed)
    ensures s.reading.Idle? && !Next(s, e).reading.Idle? ==> Next(s, e).reading == Listing
    ensures s.reading.Listing? && e.ListingArrives? && Next(s, e).reading.Exact? ==>
              !s.disposed && Next(s, e).run == Some(Next(s, e).reading.expected)
  {
    hide Matches, Keep, NeedsResolution, Replace, Retain, MergeItem, Acceptable;
  }

  /** Each answer ends the wait for it, and nothing else does. */
  lemma OnlyAnswersEnd(s: State, e: Step)
    ensures s.stop.Some? ==> (Next(s, e).stop != s.stop <==> e.StopArrives?)
    ensures s.action.Some? ==> (Next(s, e).action != s.action <==> e.ActionArrives?)
    ensures s.reading.Listing? ==> (Next(s, e).reading != s.reading <==> e.ListingArrives?)
    ensures s.reading.Exact? ==> (Next(s, e).reading != s.reading <==> e.ExactArrives?)
    ensures e.StopArrives? ==> Next(s, e).stop.None?
    ensures e.ActionArrives? ==> Next(s, e).action.None?
    ensures e.ExactArrives? && s.reading.Exact? ==> Next(s, e).reading.Idle?
    ensures Next(s, e).disposed <==> s.disposed || e.Dispose?
  {
    hide Matches, Keep, NeedsResolution, Replace, Retain, MergeItem, Acceptable, MayApprove, Named;
  }

  // ---------- answers ----------

  /** The record is of the run and extends every copy held of it. */
  ghost predicate Newest(s: State, v: Run) {
    forall p: Run :: p.runId == v.runId && (p in s.runs || s.run == Some(p)) ==>
                       v.revision >= p.revision && Matches(v, p)
  }

  /** An unresolved run can be resolved: ask to stop it, and any settled answer that extends what is held does. */
  lemma StopResolves(s: State, r: Run, v: Run)
    requires Inv(s) && !s.disposed && s.stop.None? && CopyOf(s, r.runId, r) && Open(r)
    requires v.runId == r.runId && !Open(v) && Newest(s, v)
    ensures !Unresolved(Next(Next(s, StartStop(r.runId)), StopArrives(Some(v))), r.runId)
  {
    KnownIff(s, r.runId, r);
    OpenIff(r);
    OpenIff(v);
    hide Matches, NeedsResolution, Open;
    var t := Next(s, StartStop(r.runId));
    assert t == s.(stop := Some(r));
    if s.run == Some(r) {
      if Acceptable(t, v) { AcceptHolds(t, v); }
    } else {
      ReplaceFinds(s.runs, v);
      FindIs(s.runs, r);
    }
  }

  /** The records of other runs, in their order. */
  function Others(rs: seq<Run>, id: Text): seq<Run> {
    if rs == [] then [] else (if rs[0].runId != id then [rs[0]] else []) + Others(rs[1..], id)
  }

  function OpenOnly(rs: seq<Run>): seq<Run> {
    if rs == [] then [] else (if Open(rs[0]) then [rs[0]] else []) + OpenOnly(rs[1..])
  }

  /** Of a long history the first 128 records stay, and behind them the open ones. */
  function Capped(rs: seq<Run>): seq<Run> {
    if |rs| <= 128 then rs else rs[..128] + OpenOnly(rs[128..])
  }

  lemma PartsOf(rs: seq<Run>, k: nat)
    requires k < |rs|
    ensures rs[1..][k..] == rs[k + 1..] && [rs[0]] + rs[1..][..k] == rs[..k + 1]
  {
  }

  lemma {:induction false} KeepFrom(rs: seq<Run>, index: nat)
    ensures Keep(rs, index) == if index >= 128 then OpenOnly(rs)
                               else if |rs| <= 128 - index then rs
                               else rs[..128 - index] + OpenOnly(rs[128 - index..])
  {
    hide Open, NeedsResolution;
    if rs != [] {
      KeepFrom(rs[1..], index + 1);
      OpenIff(rs[0]);
      if index < 128 {
        assert Keep(rs, index) == [rs[0]] + Keep(rs[1..], index + 1);
        assert rs == [rs[0]] + rs[1..];
        hide Keep, OpenOnly;
        if |rs| > 128 - index {
          var k := 127 - index;
          PartsOf(rs, k);
        }
      }
    }
  }

  lemma {:induction false} OthersAre(rs: seq<Run>, id: Text)
    ensures WithoutRun(rs, id) == Others(rs, id)
  {
    if rs != [] { OthersAre(rs[1..], id); }
  }

  /** The record is the selected one and comes first; the others stay in their order, as far as there is room. */
  ghost predicate TakenIn(s: State, t: State, v: Run) {
    t.run == Some(v) && t.runs == Capped([v] + Others(s.runs, v.runId))
  }

  /** No older than the copy the operator acts on, and extending it. */
  ghost predicate Fits(s: State, v: Run) {
    forall p :: CopyOf(s, v.runId, p) ==> v.revision >= p.revision && Matches(v, p)
  }

  /** A record that fits is taken in; any other changes nothing. */
  ghost predicate Settles(s: State, t: State, v: Run) {
    if Fits(s, v) then TakenIn(s, t, v) else t.run == s.run && t.runs == s.runs
  }

  lemma AcceptSettles(s: State, v: Run)
    requires Distinct(s.runs) && (s.run.Some? ==> Find(s.runs, s.run.value.runId).Some?)
    ensures Settles(s, Accept(s, v), v)
  {
    AcceptableIff(s, v);
    OthersAre(s.runs, v.runId);
    KeptIs([v] + Others(s.runs, v.runId));
    hide Acceptable, Fits, Keep, Capped, WithoutRun, Others, Distinct, Find;
  }

  lemma KeptIs(rs: seq<Run>)
    ensures Keep(rs, 0) == Capped(rs)
  {
    hide Keep, OpenOnly;
    KeepFrom(rs, 0);
  }

  lemma AcceptableIff(s: State, v: Run)
    requires Distinct(s.runs) && (s.run.Some? ==> Find(s.runs, s.run.value.runId).Some?)
    ensures Acceptable(s, v) <==> Fits(s, v)
  {
    hide Matches;
    var known := Known(s, v.runId);
    if known.Some? { assert CopyOf(s, v.runId, known.value); }
    forall p | CopyOf(s, v.runId, p) ensures known == Some(p) { if p in s.runs { FindIs(s.runs, p); } }
  }

  /** The exact read counts for the run it was asked for, while that run is selected. */
  lemma ExactSettles(s: State, v: Run)
    requires Inv(s) && s.reading.Exact?
    ensures var t := Next(s, ExactArrives(Some(v)));
            if !s.disposed && s.run.Some? && s.run.value.runId == s.reading.expected.runId then Settles(s, t, v)
            else t.run == s.run && t.runs == s.runs
  {
    var base := s.(reading := Idle);
    AcceptSettles(base, v);
    assert forall p :: CopyOf(base, v.runId, p) <==> CopyOf(s, v.runId, p);
    hide Accept, Matches;
  }

  /** The answer to a selection, or a newer copy of that run which came in meanwhile. */
  ghost predicate Chosen(s: State, known: Run, v: Run, w: Run) {
    if w == v then forall r :: r in s.runs && r.runId == known.runId ==> r.revision <= v.revision
    else w in s.runs && w.runId == known.runId && w.revision > v.revision
  }

  /**
   What the operator asked to see is selected; a preparation is taken in over nothing but the history
   copy; a receipt or an action counts only while its run is selected.
   */
  lemma ActionSettles(s: State, v: Run, w: Run)
    requires Inv(s) && s.action.Some? && !s.disposed
    ensures var t := Next(s, ActionArrives(Some(v)));
            match s.action.value
            case Select(known) => Chosen(s, known, v, w) ==> Settles(s, t, w)
            case Prepare => Settles(s.(run := None), t, v)
            case Receipt(_) =>
              if s.run.Some? && s.run.value.runId == v.runId then Settles(s, t, v)
              else t.run == s.run && t.runs == s.runs
            case Act(expected) =>
              if s.run.Some? && s.run.value.runId == expected.runId then Settles(s, t, v)
              else t.run == s.run && t.runs == s.runs
  {
    match s.action.value
    case Select(known) => if Chosen(s, known, v, w) { SelectSettles(s, known, v, w); } hide Settles, Chosen;
    case Prepare =>
      AcceptSettles(s.(run := None), v);
      hide Accept, Matches, Settles, Inv;
      OnlySelection(s.(run := None), v);
    case _ =>
      AcceptSettles(s, v);
      hide Accept, Matches, Settles, Inv;
      OnlySelection(s, v);
  }

  lemma SelectSettles(s: State, known: Run, v: Run, w: Run)
    requires Inv(s) && s.action == Some(Select(known)) && !s.disposed && Chosen(s, known, v, w)
    ensures Settles(s, Next(s, ActionArrives(Some(v))), w)
  {
    AcceptSettles(s, w);
    if w in s.runs { FindIs(s.runs, w); }
    hide Accept, Matches, Settles, Inv;
    OnlySelection(s, w);
  }

  /** Taking a record in concerns nothing but the history and the selection. */
  lemma OnlySelection(s: State, v: Run)
    ensures forall action :: Settles(s, Accept(s, v), v) <==> Settles(s, Accept(s, v).(action := action), v)
  {
    hide Accept, Fits, Capped;
  }

  /** A Stop answer for a run that is not selected replaces its history copy where it stands. */
  lemma StopSettles(s: State, v: Run)
    requires Inv(s) && s.stop.Some? && !s.disposed
    ensures var t := Next(s, StopArrives(Some(v)));
            if !Matches(v, s.stop.value) then t.runs == s.runs && t.run == s.run
            else if s.run.Some? && s.run.value.runId == v.runId then Settles(s, t, v)
            else t.run == s.run && |t.runs| == |s.runs| && forall i :: 0 <= i < |s.runs| ==>
              t.runs[i] == if s.runs[i].runId == v.runId && Matches(v, s.runs[i]) then v else s.runs[i]
  {
    AcceptSettles(s, v);
    OnlyStop(s, v);
    assert Matches(v, s.stop.value) ==> v.runId == s.stop.value.runId && v.revision >= s.stop.value.revision;
    forall i | 0 <= i < |s.runs| && s.runs[i].runId == v.runId ensures Find(s.runs, v.runId) == Some(s.runs[i]) {
      FindIs(s.runs, s.runs[i]);
    }
    var latest := Find(s.runs, v.runId);
    assert latest.Some? && Matches(v, latest.value) ==> v.revision >= latest.value.revision;
    hide Accept, Matches, Settles;
  }

  lemma OnlyStop(s: State, v: Run)
    ensures forall stop :: Settles(s, Accept(s, v), v) <==> Settles(s, Accept(s, v).(stop := stop), v)
  {
    hide Accept, Fits, Capped;
  }

  /** A closed view changes nothing it holds. */
  lemma ClosedViewKeeps(s: State, e: Step)
    requires s.disposed
    ensures Next(s, e).runs == s.runs && Next(s, e).run == s.run
  {
    hide Accept, Merge, Matches;
  }

  // ---------- a listing ----------

  /** A listed record that contradicts the copy held of its run. */
  predicate Contradicts(s: State, item: Run) {
    exists p :: p in s.runs && p.runId == item.runId && item.revision >= p.revision && !Matches(item, p)
  }

  /** What stands in the history for a listed record: the record, or a newer copy that was held. */
  ghost predicate StandsFor(s: State, item: Run, r: Run) {
    if r == item then forall p :: p in s.runs && p.runId == item.runId ==> p.revision <= item.revision
    else r in s.runs && r.runId == item.runId && r.revision > item.revision
  }

  /** The open records of runs that are not listed, in their order. */
  function Unlisted(known: seq<Run>, listing: seq<Run>): seq<Run> {
    if known == [] then []
    else
      (if Open(known[0]) && Find(listing, known[0].runId).None? then [known[0]] else []) + Unlisted(known[1..], listing)
  }

  lemma ItemStands(s: State, item: Run)
    requires Distinct(s.runs)
    ensures MergeItem(s.runs, item).None? <==> Contradicts(s, item)
    ensures MergeItem(s.runs, item).Some? ==> StandsFor(s, item, MergeItem(s.runs, item).value)
  {
    hide Matches;
    forall p | p in s.runs && p.runId == item.runId ensures Find(s.runs, item.runId) == Some(p) { FindIs(s.runs, p); }
  }

  lemma {:induction false} FindLast(rs: seq<Run>, r: Run, id: Text)
    requires r.runId != id
    ensures Find(rs + [r], id) == Find(rs, id)
  {
    if rs != [] {
      assert (rs + [r])[1..] == rs[1..] + [r];
      FindLast(rs[1..], r, id);
    }
  }

  lemma RestDiffers(known: seq<Run>)
    requires Distinct(known) && known != []
    ensures Distinct(known[1..]) && forall r :: r in known[1..] ==> r.runId != known[0].runId && r in known
  {
  }

  /** Of the known records one list names those the other names. */
  ghost predicate NamesAlike(known: seq<Run>, a: seq<Run>, b: seq<Run>) {
    forall r :: r in known ==> (Find(a, r.runId).Some? <==> Find(b, r.runId).Some?)
  }

  lemma NamesGrow(known: seq<Run>, a: seq<Run>, b: seq<Run>)
    requires Distinct(known) && known != [] && NamesAlike(known, a, b)
    ensures NamesAlike(known[1..], a, b) && NamesAlike(known[1..], a + [known[0]], b)
  {
    RestDiffers(known);
    forall r | r in known[1..] ensures Find(a + [known[0]], r.runId).Some? <==> Find(b, r.runId).Some? {
      FindLast(a, known[0], r.runId);
    }
  }

  lemma {:induction false} RetainIs(known: seq<Run>, acc: seq<Run>, listing: seq<Run>)
    requires Distinct(known) && NamesAlike(known, acc, listing)
    ensures Retain(known, acc) == acc + Unlisted(known, listing)
    decreases known
  {
    if known != [] {
      OpenIff(known[0]);
      RestDiffers(known);
      NamesGrow(known, acc, listing);
      assert Find(acc, known[0].runId).Some? <==> Find(listing, known[0].runId).Some?;
      hide Open, NeedsResolution, Find, NamesAlike, Distinct;
      if NeedsResolution(known[0]) && Find(acc, known[0].runId).None? {
        RetainIs(known[1..], acc + [known[0]], listing);
      } else {
        RetainIs(known[1..], acc, listing);
      }
    }
  }

  lemma {:induction false} SameIds(a: seq<Run>, b: seq<Run>, id: Text)
    requires |a| == |b| && forall i :: 0 <= i < |a| ==> a[i].runId == b[i].runId
    ensures Find(a, id).Some? <==> Find(b, id).Some?
  {
    if a != [] { SameIds(a[1..], b[1..], id); }
  }

  /** The listed records, or the newer copies held of them, then the open records that are not listed. */
  ghost predicate ListedAs(s: State, listing: seq<Run>, runs: seq<Run>) {
    && |runs| >= |listing| && (forall i :: 0 <= i < |listing| ==> StandsFor(s, listing[i], runs[i]))
    && runs[|listing|..] == Unlisted(s.runs, listing)
  }

  /**
   A listing is refused exactly when a record in it contradicts the history. Otherwise the history is
   the listing, newer copies kept, followed by the open records it leaves out; the selected run stays,
   in front if it would drop out; and when none is selected the first open record is.
   */
  lemma ListingSettles(s: State, listing: seq<Run>)
    requires Inv(s) && Distinct(listing) && s.reading.Listing? && !s.disposed
    ensures var t := Next(s, ListingArrives(Some(listing)));
            if exists i :: 0 <= i < |listing| && Contradicts(s, listing[i]) then
              t.runs == s.runs && t.run == s.run
            else if s.run.Some? then
              t.run == s.run && (ListedAs(s, listing, t.runs) || (t.runs != [] && t.runs[0] == s.run.value
                && ListedAs(s, listing, t.runs[1..]) && Find(t.runs[1..], s.run.value.runId).None?))
            else ListedAs(s, listing, t.runs) && FirstOpen(t.runs, t.run)
  {
    forall i | 0 <= i < |listing|
      ensures MergeItem(s.runs, listing[i]).None? <==> Contradicts(s, listing[i])
      ensures MergeItem(s.runs, listing[i]).Some? ==> StandsFor(s, listing[i], MergeItem(s.runs, listing[i]).value)
    {
      ItemStands(s, listing[i]);
    }
    hide MergeItem, Contradicts, StandsFor, Open, NeedsResolution;
    if Merge(s, listing).Some? {
      var retained := Retain(s.runs, MergedItems(s, listing));
      RetainedListed(s, listing);
      FirstIs(retained);
      hide Retain, ListedAs, FirstOpen, Inv, Find;
    }
  }

  lemma RetainedListed(s: State, listing: seq<Run>)
    requires Inv(s) && Distinct(listing) && Merge(s, listing).Some?
    requires forall i :: 0 <= i < |listing| ==>
                           StandsFor(s, listing[i], MergeItem(s.runs, listing[i]).value)
    ensures ListedAs(s, listing, Retain(s.runs, MergedItems(s, listing)))
  {
    var merged := MergedItems(s, listing);
    forall i | 0 <= i < |listing| ensures merged[i].runId == listing[i].runId { ItemMatches(s.runs, listing[i]); }
    hide MergeItem, StandsFor, Open, NeedsResolution;
    forall r | r in s.runs ensures Find(merged, r.runId).Some? <==> Find(listing, r.runId).Some? {
      SameIds(merged, listing, r.runId);
    }
    RetainIs(s.runs, merged, listing);
    assert Retain(s.runs, merged)[..|listing|] == merged;
  }

  predicate FirstOpen(rs: seq<Run>, r: Option<Run>) {
    match r
    case None => forall x :: x in rs ==> !Open(x)
    case Some(x) => exists i :: 0 <= i < |rs| && rs[i] == x && Open(x) && forall j :: 0 <= j < i ==> !Open(rs[j])
  }

  lemma {:induction false} FirstIs(rs: seq<Run>)
    ensures FirstOpen(rs, FirstUnresolved(rs))
  {
    if rs != [] {
      OpenIff(rs[0]);
      hide Open, NeedsResolution;
      FirstIs(rs[1..]);
      if !Open(rs[0]) && FirstUnresolved(rs).Some? {
        var x := FirstUnresolved(rs).value;
        var i :| 0 <= i < |rs[1..]| && rs[1..][i] == x && Open(x) && forall j :: 0 <= j < i ==> !Open(rs[1..][j]);
        assert rs[i + 1] == x && forall j :: 0 < j < i + 1 ==> rs[j] == rs[1..][j - 1];
      }
    }
  }
}
