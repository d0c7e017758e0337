/**
 The bounded setup report in its own terms: which rows are shown, the order in which they go, when
 a report is called partial, and its members by name.
 */
module SetupReportRules {
  import opened Options
  import opened Texts
  import opened JsonText
  import opened SetupReports
  import opened SetupReportFacts
  import SetupReportSizes

  // ---------- what is shown ----------

  /** The rows that hold, in their order, read from the end. */
  function Kept<A(!new)>(xs: seq<A>, p: A -> bool): seq<A> {
    if xs == [] then []
    else if p(xs[|xs| - 1]) then Kept(xs[..|xs| - 1], p) + [xs[|xs| - 1]] else Kept(xs[..|xs| - 1], p)
  }

  lemma {:induction false} KeptFirst<A(!new)>(x: A, xs: seq<A>, p: A -> bool)
    ensures Kept([x] + xs, p) == (if p(x) then [x] else []) + Kept(xs, p)
  {
    if xs == [] {
      assert ([x] + xs)[..|[x] + xs| - 1] == [];
    } else {
      KeptFirst(x, xs[..|xs| - 1], p);
      assert ([x] + xs)[..|xs|] == [x] + xs[..|xs| - 1];
    }
  }

  lemma {:induction false} FilterKeeps<A(!new)>(xs: seq<A>, p: A -> bool)
    ensures Filter(xs, p) == Kept(xs, p)
  {
    if xs != [] {
      FilterKeeps(xs[1..], p);
      KeptFirst(xs[0], xs[1..], p);
      assert [xs[0]] + xs[1..] == xs;
    }
  }

  /** The rows that do not hold, in their order. */
  function Others<A(!new)>(xs: seq<A>, p: A -> bool): seq<A> {
    if xs == [] then []
    else if p(xs[|xs| - 1]) then Others(xs[..|xs| - 1], p) else Others(xs[..|xs| - 1], p) + [xs[|xs| - 1]]
  }

  lemma {:induction false} OthersFirst<A(!new)>(x: A, xs: seq<A>, p: A -> bool)
    ensures Others([x] + xs, p) == (if p(x) then [] else [x]) + Others(xs, p)
  {
    if xs == [] {
      assert ([x] + xs)[..|[x] + xs| - 1] == [];
    } else {
      OthersFirst(x, xs[..|xs| - 1], p);
      assert ([x] + xs)[..|xs|] == [x] + xs[..|xs| - 1];
    }
  }

  lemma {:induction false} FilterOthers<A(!new)>(xs: seq<A>, p: A -> bool)
    ensures Filter(xs, x => !p(x)) == Others(xs, p)
  {
    if xs != [] {
      FilterOthers(xs[1..], p);
      OthersFirst(xs[0], xs[1..], p);
      assert [xs[0]] + xs[1..] == xs;
    }
  }

  lemma SelectedFirstIs<A(!new)>(xs: seq<A>, p: A -> bool)
    ensures SelectedFirst(xs, p) == Kept(xs, p) + Others(xs, p) && |SelectedFirst(xs, p)| == |xs|
  {
    FilterKeeps(xs, p);
    FilterOthers(xs, p);
    SelectedFirstKeeps(xs, p);
  }

  /** The first rows of a list, at most so many, and how the report speaks of the rest. */
  predicate FirstOf<A(==)>(shown: seq<A>, all: seq<A>, most: nat) {
    shown <= all && |shown| == if |all| < most then |all| else most
  }

  /**
   A new report shows 16 implementations and 32 rows of everything else at most, the chosen ones
   first, each part in its order, and counts them all.
   */
  lemma {:induction false} ProjectShows(fixed: Fixed, candidates: seq<Json>, chosen: Json -> bool,
            configurations: Option<seq<Json>>, matching: Json -> bool, devices: seq<Json>,
            capabilities: seq<Capability>, level: Level, setup: SetupRead, provider: Option<Provider>)
    ensures var r := Project(fixed, candidates, chosen, configurations, matching, devices, capabilities, level, setup,
                             provider);
            var all := if configurations.Some? then configurations.value else [];
            && FirstOf(r.implementations, Kept(candidates, chosen) + Others(candidates, chosen), 16)
            && FirstOf(r.configurations, Kept(all, matching) + Others(all, matching), 32)
            && FirstOf(r.devices, devices, 32) && FirstOf(r.capabilities, capabilities, 32)
            && r.implementationsTotal == |candidates| && (r.implementationTruncated <==> |candidates| > 16)
            && r.configurationsTotal == (if configurations.Some? then Some(|all|) else None)
            && (r.configurationTruncated <==> |all| > 32)
            && r.discovery == Source(|devices|, |r.devices|, |devices| > 32)
            && r.catalog == Source(|capabilities|, |r.capabilities|, |capabilities| > 32)
            && r.fixed == fixed && r.level == level && r.setup == setup && r.provider == provider
  {
    var all := if configurations.Some? then configurations.value else [];
    SelectedFirstIs(candidates, chosen);
    SelectedFirstIs(all, matching);
    hide SelectedFirst, Kept, Others;
  }

  // ---------- the order in which rows go ----------

  function ProviderCount(r: Report): nat { if r.provider.Some? then |r.provider.value.rows| else 0 }

  function FirstRequirements(r: Report): nat {
    if ProviderCount(r) == 0 then 0 else |r.provider.value.rows[0].requirements|
  }

  /** How many rows may still go, list by list in the order they go. */
  function Spare(r: Report): (nat, nat, nat, nat, nat, nat) {
    (if |r.implementations| > 1 then |r.implementations| - 1 else 0,
     if ProviderCount(r) > 1 then ProviderCount(r) - 1 else 0,
     if |r.configurations| > 1 then |r.configurations| - 1 else 0,
     |r.devices|, |r.capabilities|,
     if FirstRequirements(r) > 1 then FirstRequirements(r) - 1 else 0)
  }

  /** A pass takes one from the first list that has any to spare, and stops when none has. */
  lemma DropTakesFirst(r: Report)
    ensures Drop(r).None? <==> Spare(r) == (0, 0, 0, 0, 0, 0)
    ensures Drop(r).Some? ==>
              var a, b := Spare(r), Spare(Drop(r).value);
              if a.0 > 0 then b == (a.0 - 1, a.1, a.2, a.3, a.4, a.5)
              else if a.1 > 0 then b == (0, a.1 - 1, a.2, a.3, a.4, a.5)
              else if a.2 > 0 then b == (0, 0, a.2 - 1, a.3, a.4, a.5)
              else if a.3 > 0 then b == (0, 0, 0, a.3 - 1, a.4, a.5)
              else if a.4 > 0 then b == (0, 0, 0, 0, a.4 - 1, a.5)
              else b == (0, 0, 0, 0, 0, a.5 - 1)
  {
  }

  /**
   Whatever the loop took: a list has lost rows only when every list before it in the order is down
   to what stays, so requirements of the selected implementation are the very last to go.
   */
  predicate LostInOrder(x: Report, r: Report) {
    var a, b := Spare(r), Spare(x);
    && b.0 <= a.0 && b.1 <= a.1 && b.2 <= a.2 && b.3 <= a.3 && b.4 <= a.4 && b.5 <= a.5
    && (b.1 < a.1 ==> b.0 == 0) && (b.2 < a.2 ==> b.0 == b.1 == 0) && (b.3 < a.3 ==> b.0 == b.1 == b.2 == 0)
    && (b.4 < a.4 ==> b.0 == b.1 == b.2 == b.3 == 0) && (b.5 < a.5 ==> b.0 == b.1 == b.2 == b.3 == b.4 == 0)
  }

  lemma {:induction false} LossOrder(r: Report, n: nat)
    requires Dropped(r, n).Some?
    ensures LostInOrder(Dropped(r, n).value, r)
    decreases n
  {
    hide Drop, Spare;
    if n > 0 {
      DropTakesFirst(r);
      LossOrder(Drop(r).value, n - 1);
    }
  }

  // ---------- the returned report ----------

  lemma ShrunkIsDropped(r: Report) returns (n: nat)
    ensures Shrunk(r).Some? ==> Dropped(r, n) == Shrunk(r)
    ensures Shrunk(r).None? ==> Dropped(r, n).Some? && Size(Dropped(r, n).value) > 65536
                                && Spare(Dropped(r, n).value) == (0, 0, 0, 0, 0, 0)
    ensures forall m :: 0 <= m < n ==> Dropped(r, m).Some? && Size(Dropped(r, m).value) > 65536
  {
    hide Drop, Size, Rows;
    n := StopsAtFirstFit(r);
    DropTakesFirst(Dropped(r, n).value);
  }

  predicate SomethingOmitted(p: Option<Provider>) {
    p.Some? && p.value.omitted != Omitted(0, 0, 0, 0)
  }

  /** An available report is called partial when a row went, something was omitted or the setup read failed. */
  function LevelOf(r: Report, x: Report): Level {
    if r.level == Available && (Size(r) > 65536 || SomethingOmitted(x.provider) || r.setup.ReadFailed?)
    then Partial else r.level
  }

  /**
   A report that fits is returned with its rows; one that does not is returned after the fewest passes
   that make it fit, with its rows lost in order; and where no number of passes does, it is the blank one.
   */
  lemma {:induction false} BoundedIs(limitations: Json, r: Report) returns (n: nat)
    ensures Dropped(r, n).Some? && LostInOrder(Dropped(r, n).value, r)
    ensures forall m :: 0 <= m < n ==> Dropped(r, m).Some? && Size(Dropped(r, m).value) > 65536
    ensures var x, y := Dropped(r, n).value, Bounded(limitations, r);
            if Size(x) <= 65536 then y == x.(level := LevelOf(r, x))
            else Spare(x) == (0, 0, 0, 0, 0, 0) && y == Blank(limitations)
  {
    n := ShrunkIsDropped(r);
    LossOrder(r, n);
    hide Size, Drop, Rows, Blank, Spare, LostInOrder, Dropped, Shrunk;
    if Shrunk(r).Some? {
      SetupReportSizes.FirstFitRelabels(r, Shrunk(r).value);
      SetupKept(r, Shrunk(r).value);
      RelabelledIs(r, Shrunk(r).value);
      hide Relabelled, LevelOf;
    }
  }

  lemma RelabelledIs(r: Report, x: Report)
    requires x.level == r.level && x.setup == r.setup
    ensures Relabelled(x, Size(r) > MAX_REPORT_BYTES) == x.(level := LevelOf(r, x))
  {
    hide Size;
    assert AnyOmitted(x.provider) <==> SomethingOmitted(x.provider);
  }

  lemma {:induction false} SetupKept(r: Report, x: Report)
    requires Shrunk(r) == Some(x)
    ensures x.setup == r.setup && Size(x) <= 65536
  {
    hide Size, Drop, Trimmed, Exact, Conserved, Rows;
    var n := StopsAtFirstFit(r);
    DroppedKeeps(r, n);
    SetupReportSizes.TrimmedSetup(x, r);
  }

  // ---------- the report by the names of its members ----------

  predicate Member(v: Json, name: string, w: Json) { v.Obj? && Pair(T(name), w) in v.members }

  predicate Text(v: Json, name: string, text: string) { Member(v, name, Str(T(text))) }

  predicate StatusByName(v: Json, level: Level, f: Fixed) {
    && v.Obj? && |v.members| == 5 && Member(v, "observedAt", f.observedAt) && Member(v, "expiresAt", f.expiresAt)
    && match level
       case Available =>
         && Text(v, "status", "available") && Text(v, "reasonCode", "inspected")
         && Text(v, "message", "Setup records inspected " + "without refreshing " + "discovery, routing, "
                               + "configuration or hardware.")
       case Partial =>
         && Text(v, "status", "partial") && Text(v, "reasonCode", "partial")
         && Text(v, "message", "Only part of the setup " + "can be inspected from " + "the available records. "
                               + "Resolve the listed " + "evidence gaps; " + "no readiness is assumed.")
       case Unavailable =>
         && Text(v, "status", "unavailable") && Text(v, "reasonCode", "unavailable")
         && Text(v, "message",
                 "Setup evidence is unavailable. Check the local Node connection and obtain discovery and "
                 + "capability records; no missing hardware or calibration is inferred.")
  }

  predicate SourceByName(v: Json, o: Origin, digestName: string, s: Source) {
    && v.Obj? && |v.members| == 7 && Member(v, "status", Str(o.status)) && Member(v, "observedAt", o.observedAt)
    && Member(v, digestName, o.digest) && Member(v, "total", Num(s.total)) && Member(v, "shown", Num(s.shown))
    && Member(v, "truncated", Bool(s.truncated)) && Member(v, "historical", Bool(true))
  }

  predicate CountsByName(v: Json, r: Report) {
    && v.Obj? && |v.members| == 4 && Member(v, "implementations", Num(r.implementationsTotal))
    && Member(v, "configurations", if r.configurationsTotal.Some? then Num(r.configurationsTotal.value) else Null)
    && Member(v, "implementationTruncated", Bool(r.implementationTruncated))
    && Member(v, "configurationTruncated", Bool(r.configurationTruncated))
  }

  ghost predicate CapabilityByName(v: Json, c: Capability) {
    && v.Obj? && |v.members| == 4 && Member(v, "capabilityId", Str(c.id))
    && Member(v, "availableForRouting", Bool(c.routable)) && Member(v, "preconditionCount", Num(c.preconditions))
    && exists codes :: Member(v, "reasonCodes", Arr(codes)) && |codes| == |c.codes|
                       && forall i :: 0 <= i < |codes| ==> codes[i] == Str(c.codes[i])
  }

  predicate RowByName(v: Json, row: ProviderRow) {
    && v.Obj? && row.others <= v.members && |v.members| == |row.others| + 3 && Member(v, "bindings", Arr(row.bindings))
    && Member(v, "requirements", Arr(row.requirements)) && Member(v, "constraints", Arr(row.constraints))
  }

  predicate OmittedByName(v: Json, o: Omitted) {
    && v.Obj? && |v.members| == 4 && Member(v, "implementationsOmitted", Num(o.implementations))
    && Member(v, "requirementsOmitted", Num(o.requirements)) && Member(v, "bindingsOmitted", Num(o.bindings))
    && Member(v, "constraintsOmitted", Num(o.constraints))
  }

  ghost predicate ProviderByName(v: Json, p: Provider) {
    && v.Obj? && p.others <= v.members && |v.members| == |p.others| + 2
    && (exists rows :: Member(v, "implementations", Arr(rows)) && |rows| == |p.rows|
                       && forall i :: 0 <= i < |rows| ==> RowByName(rows[i], p.rows[i]))
    && exists omitted :: Member(v, "truncation", omitted) && OmittedByName(omitted, p.omitted)
  }

  ghost predicate SetupByName(v: Json, setup: SetupRead, provider: Option<Provider>) {
    && v.Obj? && |v.members| == 2
    && (match setup
        case ReadAvailable => Text(v, "status", "available")
        case NotInspected => Text(v, "status", "not_inspected")
        case ReadFailed(code) => Member(v, "status", Str(code)))
    && match provider
       case Some(p) => exists report :: Member(v, "report", report) && ProviderByName(report, p)
       case None => Member(v, "report", Null)
  }

  ghost predicate SourcesByName(v: Json, r: Report) {
    && v.Obj? && |v.members| == 3 && Member(v, "route", r.fixed.route)
    && (exists d :: Member(v, "discovery", d) && SourceByName(d, r.fixed.discovery, "digest", r.discovery))
    && exists c :: Member(v, "catalog", c) && SourceByName(c, r.fixed.catalog, "registryDigest", r.catalog)
  }

  ghost predicate HasStatus(v: Json, r: Report) {
    exists status :: Member(v, "inspection", status) && StatusByName(status, r.level, r.fixed)
  }

  ghost predicate HasSources(v: Json, r: Report) {
    exists sources :: Member(v, "sources", sources) && SourcesByName(sources, r)
  }

  ghost predicate HasCounts(v: Json, r: Report) {
    exists counts :: Member(v, "counts", counts) && CountsByName(counts, r)
  }

  ghost predicate HasSetup(v: Json, r: Report) {
    exists setup :: Member(v, "implementationSetup", setup) && SetupByName(setup, r.setup, r.provider)
  }

  ghost predicate HasCapabilities(v: Json, r: Report) {
    exists cs :: Member(v, "capabilities", Arr(cs)) && |cs| == |r.capabilities|
                 && forall i :: 0 <= i < |cs| ==> CapabilityByName(cs[i], r.capabilities[i])
  }

  /** The report that is sent, by the names of its members. */
  ghost predicate ReportByName(v: Json, r: Report) {
    && v.Obj? && |v.members| == 15 && Text(v, "contractVersion", "physicalsystems-setup-inspection-v1")
    && Member(v, "service", r.fixed.service) && Member(v, "checks", r.fixed.checks)
    && Member(v, "requestBlockers", r.fixed.requestBlockers) && Member(v, "limitations", r.fixed.limitations)
    && Text(v, "physicalReadiness", "unverified") && Member(v, "physicalExecutionAuthorized", Bool(false))
    && Member(v, "devices", Arr(r.devices)) && Member(v, "configurations", Arr(r.configurations))
    && Member(v, "implementations", Arr(r.implementations))
    && HasStatus(v, r) && HasSources(v, r) && HasCounts(v, r) && HasSetup(v, r) && HasCapabilities(v, r)
  }

  predicate NoRoute(v: Json) {
    && v.Obj? && |v.members| == 9 && Text(v, "status", "unavailable") && Text(v, "relationship", "none")
    && Member(v, "historical", Bool(true)) && Member(v, "receiptDigest", Null) && Member(v, "evaluatedAt", Null)
    && Member(v, "observedAt", Null) && Member(v, "capabilityId", Null) && Member(v, "workcellId", Null)
    && Member(v, "decisionStatus", Null)
  }

  predicate NoService(v: Json) {
    && v.Obj? && |v.members| == 3 && Text(v, "availability", "unavailable") && Member(v, "mode", Null)
    && Text(v, "configurationInventory", "unverified")
  }

  /** The blank report: nothing listed, nothing counted, nothing read, and every source unavailable. */
  predicate NothingIn(r: Report) {
    && r.level == Unavailable && r.setup == NotInspected && r.provider == None
    && r.implementations == [] && r.configurations == [] && r.devices == [] && r.capabilities == []
    && r.implementationsTotal == 0 && r.configurationsTotal == None
    && !r.implementationTruncated && !r.configurationTruncated
    && r.discovery == r.catalog == Source(0, 0, false)
    && r.fixed.observedAt == r.fixed.expiresAt == Null && r.fixed.checks == r.fixed.requestBlockers == Arr([])
    && r.fixed.discovery == r.fixed.catalog == Origin(T("unavailable"), Null, Null)
    && NoService(r.fixed.service) && NoRoute(r.fixed.route)
  }

  lemma NoRouteIs(v: Json)
    requires v == Blank(Null).fixed.route
    ensures NoRoute(v)
  {
    hide T;
    var ns := v.members;
    hide Blank;
    assert Text(v, "status", "unavailable") by { assert ns[0] in ns; }
    assert Member(v, "receiptDigest", Null) by { assert ns[1] in ns; }
    assert Member(v, "evaluatedAt", Null) by { assert ns[2] in ns; }
    assert Member(v, "observedAt", Null) by { assert ns[3] in ns; }
    assert Member(v, "capabilityId", Null) by { assert ns[4] in ns; }
    assert Member(v, "workcellId", Null) by { assert ns[5] in ns; }
    assert Member(v, "decisionStatus", Null) by { assert ns[6] in ns; }
    assert Text(v, "relationship", "none") by { assert ns[7] in ns; }
    assert Member(v, "historical", Bool(true)) by { assert ns[8] in ns; }
    hide Member, Text;
  }

  lemma NoServiceIs(v: Json)
    requires v == Blank(Null).fixed.service
    ensures NoService(v)
  {
    hide T;
    var ms := v.members;
    assert ms[0] in ms && ms[1] in ms && ms[2] in ms;
  }

  lemma BlankIs(limitations: Json)
    ensures NothingIn(Blank(limitations)) && Blank(limitations).fixed.limitations == limitations
  {
    hide T;
    var r := Blank(limitations);
    assert r.fixed.route == Blank(Null).fixed.route && r.fixed.service == Blank(Null).fixed.service;
    NoRouteIs(r.fixed.route);
    NoServiceIs(r.fixed.service);
    hide NoRoute, NoService;
  }

  lemma StatusNamed(level: Level, f: Fixed)
    ensures StatusByName(InspectionJson(level, f), level, f)
  {
    hide T;
    var ms := InspectionJson(level, f).members;
    assert ms[0] in ms && ms[1] in ms && ms[2] in ms && ms[3] in ms && ms[4] in ms;
  }

  lemma SourceNamed(o: Origin, digestName: string, s: Source)
    ensures SourceByName(SourceJson(o, T(digestName), s), o, digestName, s)
  {
    hide T;
    var ms := SourceJson(o, T(digestName), s).members;
    assert ms[0] in ms && ms[1] in ms && ms[2] in ms && ms[3] in ms && ms[4] in ms && ms[5] in ms && ms[6] in ms;
  }

  lemma CountsNamed(r: Report)
    ensures CountsByName(CountsJson(r), r)
  {
    hide T;
    var ms := CountsJson(r).members;
    assert ms[0] in ms && ms[1] in ms && ms[2] in ms && ms[3] in ms;
  }

  lemma {:induction false} QuotedAre(ts: seq<Text>)
    ensures |Quoted(ts)| == |ts| && forall i :: 0 <= i < |ts| ==> Quoted(ts)[i] == Str(ts[i])
  {
    if ts != [] { QuotedAre(ts[1..]); }
  }

  lemma CapabilityNamed(c: Capability)
    ensures CapabilityByName(CapabilityJson(c), c)
  {
    hide T;
    QuotedAre(c.codes);
    var ms := CapabilityJson(c).members;
    assert ms[0] in ms && ms[1] in ms && ms[2] in ms && ms[3] in ms;
    assert Member(CapabilityJson(c), "reasonCodes", Arr(Quoted(c.codes)));
  }

  lemma {:induction false} CapabilitiesNamed(cs: seq<Capability>)
    ensures |CapabilitiesJson(cs)| == |cs|
    ensures forall i :: 0 <= i < |cs| ==> CapabilityByName(CapabilitiesJson(cs)[i], cs[i])
  {
    hide CapabilityByName, CapabilityJson;
    if cs != [] {
      CapabilityNamed(cs[0]);
      CapabilitiesNamed(cs[1..]);
    }
  }

  lemma RowNamed(row: ProviderRow)
    ensures RowByName(ProviderRowJson(row), row)
  {
    hide T;
    var ms, n := ProviderRowJson(row).members, |row.others|;
    assert ms[n] in ms && ms[n + 1] in ms && ms[n + 2] in ms;
  }

  lemma {:induction false} RowsNamed(rows: seq<ProviderRow>)
    ensures |ProviderRowsJson(rows)| == |rows|
    ensures forall i :: 0 <= i < |rows| ==> RowByName(ProviderRowsJson(rows)[i], rows[i])
  {
    hide RowByName, ProviderRowJson;
    if rows != [] {
      RowNamed(rows[0]);
      RowsNamed(rows[1..]);
    }
  }

  lemma OmittedNamed(v: Json, o: Omitted)
    requires v == Obj([Pair(T("implementationsOmitted"), Num(o.implementations)),
                       Pair(T("requirementsOmitted"), Num(o.requirements)),
                       Pair(T("bindingsOmitted"), Num(o.bindings)), Pair(T("constraintsOmitted"), Num(o.constraints))])
    ensures OmittedByName(v, o)
  {
    hide T;
    var ms := v.members;
    assert ms[0] in ms && ms[1] in ms && ms[2] in ms && ms[3] in ms;
  }

  lemma ProviderNamed(p: Provider)
    ensures ProviderByName(ProviderJson(p), p)
  {
    hide T, RowByName, OmittedByName;
    RowsNamed(p.rows);
    var ms, n := ProviderJson(p).members, |p.others|;
    assert ms[n] in ms && ms[n + 1] in ms;
    OmittedNamed(ms[n + 1].value, p.omitted);
    assert Member(ProviderJson(p), "implementations", Arr(ProviderRowsJson(p.rows)));
    assert Member(ProviderJson(p), "truncation", ms[n + 1].value);
  }

  lemma SetupNamed(v: Json, r: Report)
    requires v == Obj([Pair(T("status"), Str(SetupStatus(r.setup))),
                       Pair(T("report"), if r.provider.Some? then ProviderJson(r.provider.value) else Null)])
    ensures SetupByName(v, r.setup, r.provider)
  {
    hide T, ProviderByName, ProviderJson;
    var ms := v.members;
    assert ms[0] in ms && ms[1] in ms;
    if r.provider.Some? {
      ProviderNamed(r.provider.value);
      assert Member(v, "report", ProviderJson(r.provider.value));
    }
  }

  lemma SourcesNamed(v: Json, r: Report)
    requires v == Obj([Pair(T("discovery"), SourceJson(r.fixed.discovery, T("digest"), r.discovery)),
                       Pair(T("catalog"), SourceJson(r.fixed.catalog, T("registryDigest"), r.catalog)),
                       Pair(T("route"), r.fixed.route)])
    ensures SourcesByName(v, r)
  {
    hide T, SourceByName, SourceJson;
    SourceNamed(r.fixed.discovery, "digest", r.discovery);
    SourceNamed(r.fixed.catalog, "registryDigest", r.catalog);
    var ms := v.members;
    assert ms[0] in ms && ms[1] in ms && ms[2] in ms;
    assert Member(v, "discovery", ms[0].value) && Member(v, "catalog", ms[1].value);
  }

  lemma OthersNamed(r: Report, v: Json)
    requires v == ReportJson(r)
    ensures v.Obj? && |v.members| == 15 && v.members[2..] == OtherMembers(r)
    ensures Text(v, "contractVersion", "physicalsystems-setup-inspection-v1")
    ensures Member(v, "inspection", InspectionJson(r.level, r.fixed))
  {
    hide T, InspectionJson;
    assert v.members[0] in v.members && v.members[1] in v.members;
    assert |OtherMembers(r)| == 13;
  }

  function SourcesPart(r: Report): Json {
    Obj([Pair(T("discovery"), SourceJson(r.fixed.discovery, T("digest"), r.discovery)),
         Pair(T("catalog"), SourceJson(r.fixed.catalog, T("registryDigest"), r.catalog)),
         Pair(T("route"), r.fixed.route)])
  }

  function SetupPart(r: Report): Json {
    Obj([Pair(T("status"), Str(SetupStatus(r.setup))),
         Pair(T("report"), if r.provider.Some? then ProviderJson(r.provider.value) else Null)])
  }

  lemma PartsNamed(r: Report, v: Json)
    requires v == ReportJson(r)
    ensures Member(v, "service", r.fixed.service) && Member(v, "checks", r.fixed.checks)
            && Member(v, "requestBlockers", r.fixed.requestBlockers) && Member(v, "limitations", r.fixed.limitations)
    ensures Text(v, "physicalReadiness", "unverified") && Member(v, "physicalExecutionAuthorized", Bool(false))
    ensures Member(v, "devices", Arr(r.devices)) && Member(v, "configurations", Arr(r.configurations))
            && Member(v, "implementations", Arr(r.implementations))
    ensures Member(v, "sources", SourcesPart(r)) && Member(v, "counts", CountsJson(r))
            && Member(v, "implementationSetup", SetupPart(r))
            && Member(v, "capabilities", Arr(CapabilitiesJson(r.capabilities)))
  {
    OthersNamed(r, v);
    hide T, ReportJson, InspectionJson, CountsJson, CapabilitiesJson, SourceJson, ProviderJson, SetupStatus;
    var ms := OtherMembers(r);
    forall i | 0 <= i < 13 ensures ms[i] in v.members { assert v.members[i + 2] == ms[i]; }
    assert ms[0] in v.members && ms[1] in v.members && ms[2] in v.members && ms[3] in v.members && ms[4] in v.members
           && ms[5] in v.members && ms[6] in v.members && ms[7] in v.members && ms[8] in v.members
           && ms[9] in v.members && ms[10] in v.members && ms[11] in v.members && ms[12] in v.members;
  }

  lemma StatusAndSources(r: Report, v: Json)
    requires v == ReportJson(r)
    ensures HasStatus(v, r) && HasSources(v, r)
  {
    OthersNamed(r, v);
    PartsNamed(r, v);
    StatusNamed(r.level, r.fixed);
    SourcesNamed(SourcesPart(r), r);
    hide Member, StatusByName, SourcesByName, InspectionJson, SourcesPart, ReportJson;
  }

  lemma CountsAndSetup(r: Report, v: Json)
    requires v == ReportJson(r)
    ensures HasCounts(v, r) && HasSetup(v, r)
  {
    PartsNamed(r, v);
    CountsNamed(r);
    SetupNamed(SetupPart(r), r);
    hide Member, CountsByName, SetupByName, CountsJson, SetupPart, ReportJson;
  }

  lemma CapabilitiesThere(r: Report, v: Json)
    requires v == ReportJson(r)
    ensures HasCapabilities(v, r)
  {
    PartsNamed(r, v);
    CapabilitiesNamed(r.capabilities);
    hide Member, CapabilityByName, CapabilitiesJson, ReportJson;
  }

  /** The report that is sent holds every part under its name, and nothing else. */
  lemma ReportNamed(r: Report)
    ensures ReportByName(ReportJson(r), r)
  {
    var v := ReportJson(r);
    OthersNamed(r, v);
    PartsNamed(r, v);
    StatusAndSources(r, v);
    CountsAndSetup(r, v);
    CapabilitiesThere(r, v);
    hide T, ReportJson, InspectionJson, HasStatus, HasSources, HasCounts, HasSetup, HasCapabilities, OtherMembers,
         Member, Text;
  }
}
