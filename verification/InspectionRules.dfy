/**
 What one inspection accepts, shows and remembers, field by field: the compact comparison, the
 checks of every listed run and of the selected one, and the table as a filter of the one before.
 */
module InspectionRules {
  import opened Options
  import opened Texts
  import opened Digests
  import opened RunContract
  import opened RunPins

  // ---------- one run against what is known of it ----------

  /** The run is the one the pins name, no older, and begins with the content they hold digests of. */
  predicate Agrees(h: Hash, r: Run, p: Pins) {
    && r.runId == p.runId && r.mode == p.mode && r.capabilityId == p.capabilityId
    && r.implementationId == p.implementationId && r.implementationDigest == p.implementationDigest
    && r.configurationId == p.configurationId && r.configurationDigest == p.configurationDigest
    && r.routeReceiptDigest == p.routeReceiptDigest && r.snapshotDigest == p.snapshotDigest
    && (r.revision > p.revision || (r.revision == p.revision && r.runDigest == p.runDigest))
    && (p.memory.Some? ==>
          && r.approval.digest == p.memory.value.approvalDigest
          && r.approval.expiresAt == p.memory.value.approvalExpiresAt
          && Digest(h, r.inputs) == Some(p.memory.value.inputsDigest)
          && |p.memory.value.eventDigests| <= |r.events|
          && forall i :: 0 <= i < |p.memory.value.eventDigests| ==>
               Digest(h, EventJson(r.events[i])) == Some(p.memory.value.eventDigests[i]))
  }

  lemma MatchPinsIff(h: Hash, r: Run, p: Pins)
    ensures MatchPins(h, r, p) <==> Agrees(h, r, p)
  {
    hide Digest;
  }

  /** The later read is the same run, no older, and begins with all that the earlier read showed. */
  predicate Succeeds(h: Hash, r: Run, e: Run) {
    && r.runId == e.runId && r.mode == e.mode && r.capabilityId == e.capabilityId
    && r.implementationId == e.implementationId && r.implementationDigest == e.implementationDigest
    && r.configurationId == e.configurationId && r.configurationDigest == e.configurationDigest
    && r.routeReceiptDigest == e.routeReceiptDigest && r.snapshotDigest == e.snapshotDigest
    && (r.revision > e.revision || (r.revision == e.revision && r.runDigest == e.runDigest))
    && r.approval.digest == e.approval.digest && r.approval.expiresAt == e.approval.expiresAt
    && Digest(h, r.inputs) == Digest(h, e.inputs) && |e.events| <= |r.events|
    && forall i :: 0 <= i < |e.events| ==> Digest(h, EventJson(r.events[i])) == Digest(h, EventJson(e.events[i]))
  }

  /** The pins are those of the record, with the digests of all its content. */
  predicate Digested(h: Hash, p: Pins, r: Run) {
    && p.runId == r.runId && p.mode == r.mode && p.capabilityId == r.capabilityId
    && p.implementationId == r.implementationId && p.implementationDigest == r.implementationDigest
    && p.configurationId == r.configurationId && p.configurationDigest == r.configurationDigest
    && p.routeReceiptDigest == r.routeReceiptDigest && p.snapshotDigest == r.snapshotDigest
    && p.revision == r.revision && p.runDigest == r.runDigest && p.memory.Some?
    && p.memory.value.approvalDigest == r.approval.digest
    && p.memory.value.approvalExpiresAt == r.approval.expiresAt
    && Some(p.memory.value.inputsDigest) == Digest(h, r.inputs) && |p.memory.value.eventDigests| == |r.events|
    && forall i :: 0 <= i < |r.events| ==>
         Some(p.memory.value.eventDigests[i]) == Digest(h, EventJson(r.events[i]))
  }

  lemma {:induction false} RememberDigests(h: Hash, r: Run)
    ensures RememberRun(h, r).Some? ==> Digested(h, RememberRun(h, r).value, r)
  {
    EventDigestsAt(h, r.events);
    hide Digest, EventDigests;
  }

  lemma {:induction false} DigestedSucceeds(h: Hash, p: Pins, r: Run, value: Run)
    requires Digested(h, p, r)
    ensures Agrees(h, value, p) <==> Succeeds(h, value, r)
  {
    hide Digest;
  }

  // ---------- what an inspection accepts ----------

  predicate KnownIn(t: Table, id: Text) { exists p :: p in t && p.runId == id }

  predicate AgreesWithTable(h: Hash, t: Table, r: Run) {
    forall p :: p in t && p.runId == r.runId ==> Agrees(h, r, p)
  }

  predicate AgreesWithBrowser(h: Hash, browser: Option<Pins>, r: Run) {
    browser.Some? && browser.value.runId == r.runId ==> Agrees(h, r, browser.value)
  }

  /** A listed run is of the service's mode and agrees with the table and with the browser's selection. */
  predicate ListedFits(h: Hash, t: Table, reading: Reading, r: Run) {
    r.mode == reading.mode && AgreesWithTable(h, t, r) && AgreesWithBrowser(h, reading.browser, r)
  }

  /** The run asked for, else the one the browser has selected, else the only one listed. */
  function Looked(reading: Reading): Option<Text> {
    match (reading.requested, reading.browser)
    case (Some(id), _) => Some(id)
    case (None, Some(p)) => Some(p.runId)
    case (None, None) => if |reading.listing| == 1 then Some(reading.listing[0].runId) else None
  }

  predicate Lists(reading: Reading, id: Text) { exists r :: r in reading.listing && r.runId == id }

  /**
   The exact read of the run looked at: it succeeds the listed record, or where it is not listed it
   agrees with the browser's selection, and in any case with the table; something of it must be known.
   */
  predicate ReadFits(h: Hash, t: Table, reading: Reading, id: Text, value: Run) {
    && value.runId == id && value.mode == reading.mode && AgreesWithTable(h, t, value)
    && (forall r :: r in reading.listing && r.runId == id ==> Succeeds(h, value, r))
    && (!Lists(reading, id) ==> AgreesWithBrowser(h, reading.browser, value))
    && (Lists(reading, id) || KnownIn(t, id) || (reading.browser.Some? && reading.browser.value.runId == id))
  }

  predicate InspectionGiven(h: Hash, t: Table, reading: Reading) {
    && reading.current
    && (reading.requested.Some? ==>
          KnownIn(t, reading.requested.value)
          || (reading.browser.Some? && reading.browser.value.runId == reading.requested.value))
    && (forall r :: r in reading.listing ==> ListedFits(h, t, reading, r))
    && (Looked(reading).Some? ==>
          reading.value.Some? && ReadFits(h, t, reading, Looked(reading).value, reading.value.value))
  }

  lemma {:induction false} RecallIff(t: Table, id: Text)
    requires DistinctEntries(t)
    ensures Recall(t, id).Some? <==> KnownIn(t, id)
    ensures Recall(t, id).Some? ==> forall p :: p in t && p.runId == id ==> p == Recall(t, id).value
  {
    if Recall(t, id).Some? { assert Recall(t, id).value in t; }
  }

  lemma TableIff(h: Hash, t: Table, r: Run)
    requires DistinctEntries(t)
    ensures MatchesRemembered(h, t, r) <==> AgreesWithTable(h, t, r)
  {
    RecallIff(t, r.runId);
    if Recall(t, r.runId).Some? { MatchPinsIff(h, r, Recall(t, r.runId).value); }
    hide MatchPins, Agrees, Recall;
  }

  lemma ListedIff(h: Hash, t: Table, reading: Reading, r: Run)
    requires DistinctEntries(t)
    ensures ListedOk(h, t, reading, r) <==> ListedFits(h, t, reading, r)
  {
    TableIff(h, t, r);
    if reading.browser.Some? { MatchPinsIff(h, r, reading.browser.value); }
    hide MatchPins, Agrees, Recall, AgreesWithTable;
  }

  lemma {:induction false} ListedAs(reading: Reading, id: Text)
    requires Distinct(reading.listing)
    ensures Find(reading.listing, id).Some? <==> Lists(reading, id)
    ensures Find(reading.listing, id).Some? ==>
              forall r :: r in reading.listing && r.runId == id ==> r == Find(reading.listing, id).value
  {
    if Find(reading.listing, id).Some? { assert Find(reading.listing, id).value in reading.listing; }
  }

  lemma {:induction false} ReadIff(h: Hash, t: Table, reading: Reading, id: Text)
    requires DistinctEntries(t) && Distinct(reading.listing) && Believed(h, reading) && SelectedId(reading) == Some(id)
    ensures SelectionOk(h, t, reading)
            <==> reading.value.Some? && ReadFits(h, t, reading, id, reading.value.value)
  {
    if reading.value.Some? {
      var value, listed := reading.value.value, Find(reading.listing, id);
      ListedAs(reading, id);
      RecallIff(t, id);
      TableIff(h, t, value);
      if listed.Some? {
        BelievedIsRemembered(h, listed.value);
        RememberDigests(h, listed.value);
        var p := RememberRun(h, listed.value).value;
        MatchPinsIff(h, value, p);
        DigestedSucceeds(h, p, listed.value, value);
      }
      if reading.browser.Some? { MatchPinsIff(h, value, reading.browser.value); }
      if Recall(t, id).Some? { MatchPinsIff(h, value, Recall(t, id).value); }
      hide MatchPins, Recall, Find, Distinct, DistinctEntries, Believed, RememberRun, Lists, KnownIn, Digested, Digest;
    }
  }

  /** An inspection gives a result exactly when every response fits, as spelled out. */
  lemma {:induction false} AcceptsIff(h: Hash, t: Table, reading: Reading)
    requires DistinctEntries(t) && Distinct(reading.listing) && Believed(h, reading)
    ensures Accepts(h, t, reading) <==> InspectionGiven(h, t, reading)
  {
    assert SelectedId(reading) == Looked(reading);
    if reading.requested.Some? { RecallIff(t, reading.requested.value); }
    if SelectedId(reading).Some? { ReadIff(h, t, reading, SelectedId(reading).value); }
    forall i | 0 <= i < |reading.listing|
      ensures ListedOk(h, t, reading, reading.listing[i]) <==> ListedFits(h, t, reading, reading.listing[i])
    {
      ListedIff(h, t, reading, reading.listing[i]);
    }
    hide ListedOk, ListedFits, Distinct, DistinctEntries, Believed, ReadFits, Recall, KnownIn, SelectedId, Looked;
    if forall i :: 0 <= i < |reading.listing| ==> ListedOk(h, t, reading, reading.listing[i]) {
      forall r | r in reading.listing ensures ListedFits(h, t, reading, r) {
        var i :| 0 <= i < |reading.listing| && reading.listing[i] == r;
        assert ListedOk(h, t, reading, reading.listing[i]);
      }
    }
  }

  // ---------- what an inspection shows and remembers ----------

  /** The listed runs but the one of this id, in order. */
  function Others(listing: seq<Run>, id: Text): seq<Run> {
    if listing == [] then []
    else if listing[0].runId == id then Others(listing[1..], id) else [listing[0]] + Others(listing[1..], id)
  }

  /** The run of the receipt where it extends the one just read, else the one just read. */
  function Chosen(reading: Reading): Option<Run> {
    match (Looked(reading), reading.value, reading.receipt)
    case (Some(_), Some(value), Some(receipt)) => if Matches(receipt, value) then Some(receipt) else Some(value)
    case (Some(_), value, _) => value
    case _ => None
  }

  /** The chosen run first and then the others, 32 in all. */
  function Displayed(reading: Reading): seq<Run> {
    match Chosen(reading)
    case None => reading.listing
    case Some(r) =>
      var all := [r] + Others(reading.listing, r.runId);
      all[..if |all| < 32 then |all| else 32]
  }

  lemma {:induction false} OthersAre(listing: seq<Run>, id: Text)
    ensures WithoutRun(listing, id) == Others(listing, id)
  {
    if listing != [] { OthersAre(listing[1..], id); }
  }

  lemma DisplayedIs(reading: Reading)
    ensures Shown(reading.listing, SelectedRun(reading)) == Displayed(reading)
  {
    hide Matches;
    assert SelectedRun(reading) == Chosen(reading);
    if Chosen(reading).Some? { OthersAre(reading.listing, Chosen(reading).value.runId); }
  }

  predicate Names(rs: seq<Run>, id: Text) { exists r :: r in rs && r.runId == id }

  /** The entries of the runs that were not shown, in the order they were stored. */
  function Unshown(t: Table, rs: seq<Run>): Table {
    if t == [] then [] else if Names(rs, t[0].runId) then Unshown(t[1..], rs) else [t[0]] + Unshown(t[1..], rs)
  }

  lemma {:induction false} UnshownOfDropped(t: Table, r: Run, rs: seq<Run>)
    ensures Unshown(Drop(t, r.runId), rs) == Unshown(t, [r] + rs)
  {
    assert ([r] + rs)[0] == r;
    forall id ensures Names([r] + rs, id) <==> r.runId == id || Names(rs, id) { NamesMore(r, rs, id); }
    if t != [] {
      UnshownOfDropped(t[1..], r, rs);
      var rest := Drop(t[1..], r.runId);
      if t[0].runId == r.runId {
        assert Drop(t, r.runId) == rest && Names([r] + rs, t[0].runId);
      } else {
        assert Drop(t, r.runId) == [t[0]] + rest && ([t[0]] + rest)[1..] == rest;
      }
    }
  }

  lemma NamesMore(r: Run, rs: seq<Run>, id: Text)
    ensures Names([r] + rs, id) <==> r.runId == id || Names(rs, id)
  {
    assert r in [r] + rs;
  }

  lemma {:induction false} UnshownNone(t: Table)
    ensures Unshown(t, []) == t
  {
    if t != [] { UnshownNone(t[1..]); }
  }

  lemma {:induction false} DroppedIs(t: Table, rs: seq<Run>)
    ensures DropAll(t, rs) == Unshown(t, rs)
    decreases rs
  {
    if rs == [] {
      UnshownNone(t);
    } else {
      DroppedIs(Drop(t, rs[0].runId), rs[1..]);
      UnshownOfDropped(t, rs[0], rs[1..]);
      assert [rs[0]] + rs[1..] == rs;
    }
  }

  lemma {:induction false} RememberedAre(h: Hash, rs: seq<Run>)
    requires forall i :: 0 <= i < |rs| ==> RememberRun(h, rs[i]).Some?
    ensures |RememberAll(h, rs)| == |rs|
    ensures forall i :: 0 <= i < |rs| ==> Digested(h, RememberAll(h, rs)[i], rs[i])
  {
    hide RememberRun, Digested;
    if rs != [] {
      RememberedAre(h, rs[1..]);
      RememberDigests(h, rs[0]);
      forall i | 0 <= i < |rs| ensures Digested(h, RememberAll(h, rs)[i], rs[i]) {
        if i > 0 { assert rs[i] == rs[1..][i - 1]; }
      }
    }
  }

  /**
   The table afterwards: the entries of unshown runs in their order, then the shown runs with the
   digests of their content, and of all these the last 128.
   */
  ghost predicate TableAfter(h: Hash, t: Table, rs: seq<Run>, u: Table) {
    exists added: Table ::
      && |added| == |rs| && (forall i :: 0 <= i < |rs| ==> Digested(h, added[i], rs[i]))
      && var all := Unshown(t, rs) + added; u == all[if |all| > 128 then |all| - 128 else 0..]
  }

  lemma {:induction false} StoredIs(h: Hash, t: Table, rs: seq<Run>)
    requires forall i :: 0 <= i < |rs| ==> RememberRun(h, rs[i]).Some?
    ensures TableAfter(h, t, rs, Stored(h, t, rs))
  {
    DroppedIs(t, rs);
    RememberedAre(h, rs);
    hide Digested, RememberRun, Unshown, DropAll;
    var added := RememberAll(h, rs);
    assert |added| == |rs|;
  }

  /**
   An inspection shows the chosen run and the listed ones exactly when every response fits, and then
   moves what it shows to the end of the table; otherwise nothing is shown and the table stays.
   */
  lemma {:induction false} InspectedAs(h: Hash, t: Table, reading: Reading, shown: Option<seq<Run>>, u: Table)
    requires DistinctEntries(t) && Distinct(reading.listing) && Believed(h, reading)
    requires Inspected(h, t, reading, shown, u)
    ensures shown == if InspectionGiven(h, t, reading) then Some(Displayed(reading)) else None
    ensures if shown.Some? then TableAfter(h, t, shown.value, u) else u == t
  {
    AcceptsIff(h, t, reading);
    DisplayedIs(reading);
    hide Accepts, InspectionGiven, Displayed, Shown, Stored, DistinctEntries, Distinct, Believed, Digested,
         RememberRun, TableAfter;
    if shown.Some? { StoredIs(h, t, shown.value); }
  }
}
