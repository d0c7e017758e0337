/**
 The bounded setup report: which rows are projected, which are dropped when the report is
 too large, and what the counts and flags still say about the rows that are gone.
 */
module SetupReports {
  import opened Options
  import opened Texts
  import opened JsonText
  import JsonReading

  const MAX_ROWS := 32
  const MAX_IMPLEMENTATIONS := 16
  const MAX_REPORT_BYTES := 65536

  /** A row of the Node's own report: its other members, and the three lists that are counted. */
  datatype ProviderRow = ProviderRow(others: seq<Pair<Json>>, bindings: seq<Json>, requirements: seq<Json>,
          constraints: seq<Json>)

  datatype Omitted = Omitted(implementations: nat, requirements: nat, bindings: nat, constraints: nat)

  datatype Provider = Provider(others: seq<Pair<Json>>, rows: seq<ProviderRow>, omitted: Omitted)

  datatype Capability = Capability(id: Text, routable: bool, preconditions: nat, codes: seq<Text>)

  datatype Source = Source(total: nat, shown: nat, truncated: bool)

  datatype Level = Available | Partial | Unavailable

  datatype SetupRead = ReadAvailable | NotInspected | ReadFailed(code: Text)

  /** What the bounding never changes. */
  datatype Fixed = Fixed(
    observedAt: Json, expiresAt: Json, service: Json, discovery: Origin, catalog: Origin, route: Json,
    checks: Json, requestBlockers: Json, limitations: Json)

  datatype Origin = Origin(status: Text, observedAt: Json, digest: Json)

  datatype Report = Report(
    fixed: Fixed, level: Level, setup: SetupRead, provider: Option<Provider>,
    implementations: seq<Json>, configurations: seq<Json>, devices: seq<Json>, capabilities: seq<Capability>,
    implementationsTotal: nat, implementationTruncated: bool, configurationsTotal: Option<nat>,
        configurationTruncated: bool,
    discovery: Source, catalog: Source)

  /** The report that stands for no evidence at all. */
  function Blank(limitations: Json): Report {
    var none := Origin(T("unavailable"), Null, Null);
    var service := Obj([Pair(T("availability"), Str(T("unavailable"))), Pair(T("mode"), Null),
                        Pair(T("configurationInventory"), Str(T("unverified")))]);
    var route := Obj([Pair(T("status"), Str(T("unavailable"))), Pair(T("receiptDigest"), Null),
            Pair(T("evaluatedAt"), Null),
                      Pair(T("observedAt"), Null), Pair(T("capabilityId"), Null), Pair(T("workcellId"), Null),
                      Pair(T("decisionStatus"), Null), Pair(T("relationship"), Str(T("none"))),
                          Pair(T("historical"), Bool(true))]);
    Report(Fixed(Null, Null, service, none, none, route, Arr([]), Arr([]), limitations), Unavailable, NotInspected,
           None,
           [], [], [], [], 0, false, None, false, Source(0, 0, false), Source(0, 0, false))
  }

  // ---------- the report as it is sent ----------

  function StatusText(level: Level): Text {
    match level
    case Available => T("available")
    case Partial => T("partial")
    case Unavailable => T("unavailable")
  }

  function ReasonCode(level: Level): Text {
    match level
    case Available => T("inspected")
    case Partial => T("partial")
    case Unavailable => T("unavailable")
  }

  const INSPECTED :=
    "Setup records inspected " + "without refreshing " + "discovery, routing, " + "configuration or hardware."
  const PARTIAL :=
    "Only part of the setup " + "can be inspected from " + "the available records. "
    + "Resolve the listed " + "evidence gaps; " + "no readiness is assumed."
  const UNAVAILABLE :=
    "Setup evidence is unavailable. Check the local Node connection and obtain discovery and "
    + "capability records; no missing hardware or calibration is inferred."

  function Message(level: Level): Text {
    match level
    case Available => T(INSPECTED)
    case Partial => T(PARTIAL)
    case Unavailable => T(UNAVAILABLE)
  }

  function InspectionJson(level: Level, f: Fixed): Json {
    Obj([Pair(T("status"), Str(StatusText(level))), Pair(T("reasonCode"), Str(ReasonCode(level))),
         Pair(T("observedAt"), f.observedAt), Pair(T("expiresAt"), f.expiresAt),
             Pair(T("message"), Str(Message(level)))])
  }

  function SourceJson(o: Origin, digestName: Text, s: Source): Json {
    Obj([Pair(T("status"), Str(o.status)), Pair(T("observedAt"), o.observedAt), Pair(digestName, o.digest),
         Pair(T("total"), Num(s.total)), Pair(T("shown"), Num(s.shown)), Pair(T("truncated"), Bool(s.truncated)),
         Pair(T("historical"), Bool(true))])
  }

  function Quoted(ts: seq<Text>): seq<Json> {
    if ts == [] then [] else [Str(ts[0])] + Quoted(ts[1..])
  }

  function CapabilityJson(c: Capability): Json {
    Obj([Pair(T("capabilityId"), Str(c.id)), Pair(T("availableForRouting"), Bool(c.routable)),
         Pair(T("preconditionCount"), Num(c.preconditions)), Pair(T("reasonCodes"), Arr(Quoted(c.codes)))])
  }

  function CapabilitiesJson(cs: seq<Capability>): seq<Json> {
    if cs == [] then [] else [CapabilityJson(cs[0])] + CapabilitiesJson(cs[1..])
  }

  function ProviderRowJson(r: ProviderRow): Json {
    Obj(r.others + [Pair(T("bindings"), Arr(r.bindings)), Pair(T("requirements"), Arr(r.requirements)),
                    Pair(T("constraints"), Arr(r.constraints))])
  }

  function ProviderRowsJson(rows: seq<ProviderRow>): seq<Json> {
    if rows == [] then [] else [ProviderRowJson(rows[0])] + ProviderRowsJson(rows[1..])
  }

  /** The members in the order the contract names them; another order has the same length. */
  function ProviderJson(p: Provider): Json {
    Obj(p.others + [Pair(T("implementations"), Arr(ProviderRowsJson(p.rows))),
                    Pair(T("truncation"), Obj([
                      Pair(T("implementationsOmitted"), Num(p.omitted.implementations)),
                      Pair(T("requirementsOmitted"), Num(p.omitted.requirements)),
                      Pair(T("bindingsOmitted"), Num(p.omitted.bindings)),
                      Pair(T("constraintsOmitted"), Num(p.omitted.constraints))]))])
  }

  function SetupStatus(setup: SetupRead): Text {
    match setup
    case ReadAvailable => T("available")
    case NotInspected => T("not_inspected")
    case ReadFailed(code) => code
  }

  function CountsJson(r: Report): Json {
    Obj([Pair(T("configurations"), if r.configurationsTotal.Some? then Num(r.configurationsTotal.value) else Null),
         Pair(T("implementations"), Num(r.implementationsTotal)),
         Pair(T("configurationTruncated"), Bool(r.configurationTruncated)),
         Pair(T("implementationTruncated"), Bool(r.implementationTruncated))])
  }

  /** Every member of the report, the status text apart. */
  function OtherMembers(r: Report): seq<Pair<Json>> {
    [Pair(T("service"), r.fixed.service),
     Pair(T("sources"), Obj([Pair(T("discovery"), SourceJson(r.fixed.discovery, T("digest"), r.discovery)),
                             Pair(T("catalog"), SourceJson(r.fixed.catalog, T("registryDigest"), r.catalog)),
                             Pair(T("route"), r.fixed.route)])),
     Pair(T("devices"), Arr(r.devices)), Pair(T("capabilities"), Arr(CapabilitiesJson(r.capabilities))),
     Pair(T("configurations"), Arr(r.configurations)), Pair(T("implementations"), Arr(r.implementations)),
     Pair(T("checks"), r.fixed.checks), Pair(T("requestBlockers"), r.fixed.requestBlockers),
         Pair(T("counts"), CountsJson(r)),
     Pair(T("implementationSetup"), Obj([
       Pair(T("status"), Str(SetupStatus(r.setup))),
       Pair(T("report"), if r.provider.Some? then ProviderJson(r.provider.value) else Null)])),
     Pair(T("limitations"), r.fixed.limitations), Pair(T("physicalReadiness"), Str(T("unverified"))),
     Pair(T("physicalExecutionAuthorized"), Bool(false))]
  }

  function ReportJson(r: Report): Json {
    Obj([Pair(T("contractVersion"), Str(T("physicalsystems-setup-inspection-v1"))),
         Pair(T("inspection"), InspectionJson(r.level, r.fixed))] + OtherMembers(r))
  }

  /** The bytes of the report as it is sent: its members in the order they were set, in UTF-8. */
  function Size(r: Report): nat { Utf8Length(JsonReading.Serial(ReportJson(r))) }

  // ---------- projection ----------

  function Filter<A(!new)>(xs: seq<A>, p: A -> bool): (r: seq<A>)
    ensures forall x :: x in r <==> x in xs && p(x)
  {
    if xs == [] then [] else (if p(xs[0]) then [xs[0]] else []) + Filter(xs[1..], p)
  }

  /** The chosen rows first, each part in its own order. */
  function SelectedFirst<A(!new)>(xs: seq<A>, p: A -> bool): seq<A> {
    Filter(xs, p) + Filter(xs, x => !p(x))
  }

  function Cap<A>(xs: seq<A>, most: nat): seq<A> { if |xs| <= most then xs else xs[..most] }

  function Shown<A>(xs: seq<A>): Source { Source(|xs|, |Cap(xs, MAX_ROWS)|, |xs| > MAX_ROWS) }

  /** The row lists of a report, from records that were all readable; absent sources are empty lists. */
  function Project(fixed: Fixed, candidates: seq<Json>, chosen: Json -> bool, configurations: Option<seq<Json>>,
            matching: Json -> bool,
                   devices: seq<Json>, capabilities: seq<Capability>, level: Level, setup: SetupRead,
                       provider: Option<Provider>): Report
  {
    var all := if configurations.Some? then configurations.value else [];
    Report(fixed, level, setup, provider,
      Cap(SelectedFirst(candidates, chosen), MAX_IMPLEMENTATIONS), Cap(SelectedFirst(all, matching), MAX_ROWS),
      Cap(devices, MAX_ROWS), Cap(capabilities, MAX_ROWS),
      |candidates|, |candidates| > MAX_IMPLEMENTATIONS,
      if configurations.Some? then Some(|all|) else None, |all| > MAX_ROWS, Shown(devices), Shown(capabilities))
  }

  // ---------- dropping rows ----------

  function DropProviderRow(p: Provider): Provider
    requires |p.rows| > 1
  {
    var removed := p.rows[|p.rows| - 1];
    p.(rows := p.rows[..|p.rows| - 1], omitted :=
      Omitted(p.omitted.implementations + 1, p.omitted.requirements + |removed.requirements|,
              p.omitted.bindings + |removed.bindings|, p.omitted.constraints + |removed.constraints|))
  }

  function Pop<T>(xs: seq<T>): seq<T>
    requires xs != []
  {
    xs[..|xs| - 1]
  }

  function DropRequirement(p: Provider): Provider
    requires p.rows != [] && p.rows[0].requirements != []
  {
    p.(rows := p.rows[0 := p.rows[0].(requirements := Pop(p.rows[0].requirements))],
       omitted := p.omitted.(requirements := p.omitted.requirements + 1))
  }

  /** One pass: the next row that may go, or None when only what must stay is left. */
  function Drop(r: Report): Option<Report> {
    if |r.implementations| > 1 then
      Some(r.(implementations := Pop(r.implementations), implementationTruncated := true))
    else if r.provider.Some? && |r.provider.value.rows| > 1 then
           Some(r.(provider := Some(DropProviderRow(r.provider.value))))
    else if |r.configurations| > 1 then
           Some(r.(configurations := Pop(r.configurations), configurationTruncated := true))
    else if r.devices != [] then
      Some(r.(devices := Pop(r.devices), discovery := r.discovery.(shown := |r.devices| - 1, truncated := true)))
    else if r.capabilities != [] then
      Some(r.(capabilities := Pop(r.capabilities),
              catalog := r.catalog.(shown := |r.capabilities| - 1, truncated := true)))
    else if r.provider.Some? && r.provider.value.rows != [] && |r.provider.value.rows[0].requirements| > 1 then
      Some(r.(provider := Some(DropRequirement(r.provider.value))))
    else None
  }

  function ProviderRows(p: Option<Provider>): nat {
    if p.None? then 0
    else |p.value.rows| + (if p.value.rows == [] then 0 else |p.value.rows[0].requirements|)
  }

  function Rows(r: Report): nat {
    |r.implementations| + |r.configurations| + |r.devices| + |r.capabilities| + ProviderRows(r.provider)
  }

  lemma ProviderRowTakesOne(p: Provider)
    requires |p.rows| > 1
    ensures ProviderRows(Some(DropProviderRow(p))) == ProviderRows(Some(p)) - 1
  {
    assert p.rows[..|p.rows| - 1][0] == p.rows[0];
  }

  lemma RequirementTakesOne(p: Provider)
    requires p.rows != [] && p.rows[0].requirements != []
    ensures ProviderRows(Some(DropRequirement(p))) == ProviderRows(Some(p)) - 1
  {
  }

  /** Every pass takes exactly one row away. */
  lemma DropTakesOne(r: Report)
    requires Drop(r).Some?
    ensures Rows(Drop(r).value) == Rows(r) - 1
  {
    hide ProviderRows, DropProviderRow, DropRequirement;
    if r.provider.Some? {
      if |r.provider.value.rows| > 1 { ProviderRowTakesOne(r.provider.value); }
      if r.provider.value.rows != [] && |r.provider.value.rows[0].requirements| > 1 {
        RequirementTakesOne(r.provider.value);
      }
    }
  }

  /** The loop: None where nothing more may go and the report is still too large. */
  function Shrunk(r: Report): Option<Report>
    decreases Rows(r)
  {
    if Size(r) <= MAX_REPORT_BYTES then Some(r)
    else if Drop(r).None? then None
    else
      DropTakesOne(r);
      Shrunk(Drop(r).value)
  }

  predicate AnyOmitted(p: Option<Provider>) {
    p.Some? && (p.value.omitted.implementations > 0 || p.value.omitted.requirements > 0
                || p.value.omitted.bindings > 0 || p.value.omitted.constraints > 0)
  }

  /** The status text is changed after the loop. */
  predicate Relabels(r: Report, truncated: bool) {
    (truncated || AnyOmitted(r.provider) || r.setup.ReadFailed?) && r.level.Available?
  }

  function Relabelled(r: Report, truncated: bool): Report {
    if Relabels(r, truncated) then r.(level := Partial) else r
  }

  function Bounded(limitations: Json, r: Report): Report {
    match Shrunk(r)
    case None => Blank(limitations)
    case Some(x) => Relabelled(x, Size(r) > MAX_REPORT_BYTES)
  }

  // ---------- the loop in place ----------

  class SetupReport {
    const fixed: Fixed
    var level: Level
    var setup: SetupRead
    var provider: Option<Provider>
    var implementations: seq<Json>
    var configurations: seq<Json>
    var devices: seq<Json>
    var capabilities: seq<Capability>
    var implementationsTotal: nat
    var implementationTruncated: bool
    var configurationsTotal: Option<nat>
    var configurationTruncated: bool
    var discovery: Source
    var catalog: Source

    function Model(): Report
      reads this
    {
      Report(fixed, level, setup, provider, implementations, configurations, devices, capabilities,
             implementationsTotal,
             implementationTruncated, configurationsTotal, configurationTruncated, discovery, catalog)
    }

    constructor (r: Report)
      ensures Model() == r
    {
      fixed, level, setup, provider := r.fixed, r.level, r.setup, r.provider;
      implementations, configurations, devices, capabilities := r.implementations, r.configurations, r.devices,
          r.capabilities;
      implementationsTotal, implementationTruncated := r.implementationsTotal, r.implementationTruncated;
      configurationsTotal, configurationTruncated := r.configurationsTotal, r.configurationTruncated;
      discovery, catalog := r.discovery, r.catalog;
    }

    /** One pass of the loop. */
    method DropRow() returns (dropped: bool)
      modifies this
      ensures dropped <==> Drop(old(Model())).Some?
      ensures Model() == if dropped then Drop(old(Model())).value else old(Model())
    {
      hide DropProviderRow, DropRequirement;
      dropped := true;
      if |implementations| > 1 {
        implementations, implementationTruncated := Pop(implementations), true;
      } else if provider.Some? && |provider.value.rows| > 1 {
        provider := Some(DropProviderRow(provider.value));
      } else if |configurations| > 1 {
        configurations, configurationTruncated := Pop(configurations), true;
      } else if devices != [] {
        devices := Pop(devices);
        discovery := Source(discovery.total, |devices|, true);
      } else if capabilities != [] {
        capabilities := Pop(capabilities);
        catalog := Source(catalog.total, |capabilities|, true);
      } else if provider.Some? && provider.value.rows != [] && |provider.value.rows[0].requirements| > 1 {
        provider := Some(DropRequirement(provider.value));
      } else {
        dropped := false;
      }
    }

    /** Rows are popped until the report fits; a report that cannot fit is replaced by the empty one. */
    method Bound(limitations: Json) returns (result: Report)
      modifies this
      ensures result == Bounded(limitations, old(Model()))
      ensures Shrunk(old(Model())).Some? ==> result == Model()
    {
      hide Drop, Rows, Size, Blank;
      var truncated := false;
      while Size(Model()) > MAX_REPORT_BYTES
        invariant Shrunk(Model()) == Shrunk(old(Model()))
        invariant if truncated then Size(old(Model())) > MAX_REPORT_BYTES else Model() == old(Model())
        decreases Rows(Model())
      {
        ghost var before := Model();
        truncated := true;
        var dropped := DropRow();
        if !dropped { return Blank(limitations); }
        DropTakesOne(before);
      }
      if (truncated || AnyOmitted(provider) || setup.ReadFailed?) && level.Available? { level := Partial; }
      result := Model();
    }
  }
}
