/**
 What a bounded report still says: what is shown and what is counted as omitted add up, every
 flag is exact, and the selected implementation is the last row to go.
 */
module SetupReportFacts {
  import opened Options
  import opened JsonText
  import opened SetupReports

  // ---------- flags and counts ----------

  predicate ExactSource<A>(s: Source, rows: seq<A>) {
    s.shown == |rows| <= s.total && (s.truncated <==> |rows| < s.total)
  }

  /** Each flag is set exactly when rows are missing, and each count is that of the rows there are. */
  predicate Exact(r: Report) {
    && ExactSource(r.discovery, r.devices) && ExactSource(r.catalog, r.capabilities)
    && |r.implementations| <= r.implementationsTotal && (r.implementationTruncated
                                                         <==> |r.implementations| < r.implementationsTotal)
    && (match r.configurationsTotal
        case Some(total) => |r.configurations| <= total && (r.configurationTruncated <==> |r.configurations| < total)
        case None => r.configurations == [] && !r.configurationTruncated)
  }

  lemma DropExact(r: Report)
    requires Exact(r) && Drop(r).Some?
    ensures Exact(Drop(r).value)
  {
    hide DropProviderRow, DropRequirement;
  }

  // ---------- conservation ----------

  function Requirements(rows: seq<ProviderRow>): nat {
    if rows == [] then 0 else Requirements(rows[..|rows| - 1]) + |rows[|rows| - 1].requirements|
  }

  function Bindings(rows: seq<ProviderRow>): nat {
    if rows == [] then 0 else Bindings(rows[..|rows| - 1]) + |rows[|rows| - 1].bindings|
  }

  function Constraints(rows: seq<ProviderRow>): nat {
    if rows == [] then 0 else Constraints(rows[..|rows| - 1]) + |rows[|rows| - 1].constraints|
  }

  /** Shown plus omitted: implementations, requirements, bindings and constraints. */
  function Total(p: Provider): (nat, nat, nat, nat) {
    (|p.rows| + p.omitted.implementations, Requirements(p.rows) + p.omitted.requirements,
     Bindings(p.rows) + p.omitted.bindings, Constraints(p.rows) + p.omitted.constraints)
  }

  predicate Conserved(a: Option<Provider>, b: Option<Provider>) {
    match (a, b)
    case (Some(p), Some(q)) => Total(p) == Total(q)
    case _ => a == b
  }

  lemma {:induction false} FirstRowChanges(rows: seq<ProviderRow>, row: ProviderRow)
    requires rows != [] && row.bindings == rows[0].bindings && row.constraints == rows[0].constraints
    ensures Requirements(rows[0 := row]) + |rows[0].requirements| == Requirements(rows) + |row.requirements|
    ensures Bindings(rows[0 := row]) == Bindings(rows) && Constraints(rows[0 := row]) == Constraints(rows)
  {
    var n := |rows| - 1;
    if n > 0 {
      FirstRowChanges(rows[..n], row);
      assert rows[0 := row][..n] == rows[..n][0 := row];
    }
  }

  lemma {:induction false} DropConserves(r: Report)
    requires Drop(r).Some?
    ensures Conserved(Drop(r).value.provider, r.provider)
  {
    if r.provider.Some? && r.provider.value.rows != [] {
      var row := r.provider.value.rows[0];
      if row.requirements != [] { FirstRowChanges(r.provider.value.rows, row.(requirements := Pop(row.requirements))); }
    }
  }

  // ---------- what is left ----------

  /** A shorter list of the same rows that keeps its first row. */
  predicate Start<T(==)>(xs: seq<T>, ys: seq<T>) {
    xs <= ys && (ys != [] ==> xs != [])
  }

  predicate FirstRowStays(p: Provider, q: Provider) {
    q.rows != [] ==>
      && p.rows != [] && p.rows[0].others == q.rows[0].others && p.rows[0].bindings == q.rows[0].bindings
      && p.rows[0].constraints == q.rows[0].constraints && Start(p.rows[0].requirements, q.rows[0].requirements)
  }

  predicate ProviderTrimmed(p: Provider, q: Provider) {
    p.others == q.others && FirstRowStays(p, q) && |p.rows| <= |q.rows|
        && forall i :: 0 < i < |p.rows| ==> p.rows[i] == q.rows[i]
  }

  /** Whole rows are gone from the end of lists; the first implementation, configuration and provider row stay. */
  predicate Trimmed(x: Report, r: Report) {
    && x.fixed == r.fixed && Start(x.implementations, r.implementations) && Start(x.configurations, r.configurations)
    && x.devices <= r.devices && x.capabilities <= r.capabilities
    && x.implementationsTotal == r.implementationsTotal && x.configurationsTotal == r.configurationsTotal
    && x.discovery.total == r.discovery.total && x.catalog.total == r.catalog.total && x.setup == r.setup
    && (match (x.provider, r.provider)
        case (Some(p), Some(q)) => ProviderTrimmed(p, q)
        case _ => x.provider == r.provider)
  }

  lemma ProviderTrimmedTransitive(a: Provider, b: Provider, c: Provider)
    requires ProviderTrimmed(a, b) && ProviderTrimmed(b, c)
    ensures ProviderTrimmed(a, c)
  {
  }

  lemma TrimmedTransitive(a: Report, b: Report, c: Report)
    requires Trimmed(a, b) && Trimmed(b, c)
    ensures Trimmed(a, c)
  {
    hide ProviderTrimmed;
    if a.provider.Some? { ProviderTrimmedTransitive(a.provider.value, b.provider.value, c.provider.value); }
  }

  lemma ProviderRowTrims(p: Provider)
    requires |p.rows| > 1
    ensures ProviderTrimmed(DropProviderRow(p), p)
  {
  }

  lemma RequirementTrims(p: Provider)
    requires p.rows != [] && |p.rows[0].requirements| > 1
    ensures ProviderTrimmed(DropRequirement(p), p)
  {
  }

  lemma ProviderTrimsSelf(p: Provider)
    ensures ProviderTrimmed(p, p)
  {
  }

  lemma DropTrims(r: Report)
    requires Drop(r).Some?
    ensures Trimmed(Drop(r).value, r) && Drop(r).value.level == r.level
  {
    hide ProviderTrimmed, DropProviderRow, DropRequirement;
    if r.provider.Some? {
      var p := r.provider.value;
      ProviderTrimsSelf(p);
      if |p.rows| > 1 { ProviderRowTrims(p); }
      if p.rows != [] && |p.rows[0].requirements| > 1 { RequirementTrims(p); }
    }
  }

  lemma TrimmedSelf(r: Report)
    ensures Trimmed(r, r)
  {
    if r.provider.Some? { ProviderTrimsSelf(r.provider.value); }
  }

  /** The report after n passes. */
  function Dropped(r: Report, n: nat): Option<Report>
    decreases n
  {
    if n == 0 then Some(r)
    else if Drop(r).None? then None else Dropped(Drop(r).value, n - 1)
  }

  lemma {:induction false} DroppedKeeps(r: Report, n: nat)
    requires Dropped(r, n).Some?
    ensures var x := Dropped(r, n).value;
            Trimmed(x, r) && Conserved(x.provider, r.provider) && x.level == r.level && (Exact(r) ==> Exact(x))
                && Rows(x) == Rows(r) - n
    decreases n
  {
    hide Drop, Trimmed, Exact, Conserved, Rows;
    TrimmedSelf(r);
    if n == 0 {
      ConservedSelf(r.provider);
    } else {
      var d := Drop(r).value;
      DropTrims(r);
      DropConserves(r);
      DropTakesOne(r);
      if Exact(r) { DropExact(r); }
      DroppedKeeps(d, n - 1);
      var x := Dropped(r, n).value;
      TrimmedTransitive(x, d, r);
      ConservedTransitive(x.provider, d.provider, r.provider);
    }
  }

  lemma ConservedSelf(p: Option<Provider>)
    ensures Conserved(p, p)
  {
  }

  lemma ConservedTransitive(a: Option<Provider>, b: Option<Provider>, c: Option<Provider>)
    requires Conserved(a, b) && Conserved(b, c)
    ensures Conserved(a, c)
  {
  }

  /** The loop stops at the first report that fits; if none does, when nothing more may go. */
  lemma {:induction false} StopsAtFirstFit(r: Report) returns (n: nat)
    ensures forall m :: 0 <= m < n ==> Dropped(r, m).Some? && Size(Dropped(r, m).value) > MAX_REPORT_BYTES
    ensures Dropped(r, n).Some?
    ensures match Shrunk(r)
            case Some(x) => Dropped(r, n) == Some(x) && Size(x) <= MAX_REPORT_BYTES
            case None => Size(Dropped(r, n).value) > MAX_REPORT_BYTES && Drop(Dropped(r, n).value).None?
    decreases Rows(r)
  {
    hide Drop, Rows, Size;
    if Size(r) <= MAX_REPORT_BYTES || Drop(r).None? {
      n := 0;
    } else {
      DropTakesOne(r);
      var d := Drop(r).value;
      var k := StopsAtFirstFit(d);
      n := k + 1;
      forall m | 0 <= m < n ensures Dropped(r, m).Some? && Size(Dropped(r, m).value) > MAX_REPORT_BYTES {
        if m > 0 { assert Dropped(r, m) == Dropped(d, m - 1); }
      }
    }
  }

  // ---------- the returned report ----------

  lemma RelabelKeeps(x: Report, r: Report, truncated: bool)
    requires Trimmed(x, r)
    ensures var y := Relabelled(x, truncated);
            Trimmed(y, r) && y.provider == x.provider && (Exact(x) ==> Exact(y))
                && y.implementations == x.implementations
  {
    hide ProviderTrimmed;
  }

  /** A returned report is the blank one, or rows of the original one with exact flags and nothing uncounted. */
  lemma {:induction false} BoundedKeeps(limitations: Json, r: Report)
    requires Exact(r)
    ensures var y := Bounded(limitations, r);
            y == Blank(limitations) || (Trimmed(y, r) && Conserved(y.provider, r.provider) && Exact(y))
  {
    hide Drop, Trimmed, Exact, Conserved, Rows, Size, Blank;
    var n := StopsAtFirstFit(r);
    DroppedKeeps(r, n);
    if Shrunk(r).Some? { RelabelKeeps(Shrunk(r).value, r, Size(r) > MAX_REPORT_BYTES); }
  }

  // ---------- the selected row ----------

  lemma {:induction false} FilterSplits<A(!new)>(xs: seq<A>, p: A -> bool)
    ensures multiset(Filter(xs, p)) + multiset(Filter(xs, x => !p(x))) == multiset(xs)
  {
    if xs != [] {
      FilterSplits(xs[1..], p);
      assert xs == [xs[0]] + xs[1..];
    }
  }

  /** Reordering loses no row and repeats none, and a chosen row comes first when there is one. */
  lemma {:induction false} SelectedFirstKeeps<A(!new)>(xs: seq<A>, p: A -> bool)
    ensures multiset(SelectedFirst(xs, p)) == multiset(xs) && |SelectedFirst(xs, p)| == |xs|
    ensures (exists x :: x in xs && p(x)) ==> SelectedFirst(xs, p) != [] && p(SelectedFirst(xs, p)[0])
  {
    FilterSplits(xs, p);
    var chosen, rest := Filter(xs, p), Filter(xs, x => !p(x));
    assert multiset(chosen + rest) == multiset(chosen) + multiset(rest);
    assert |multiset(SelectedFirst(xs, p))| == |SelectedFirst(xs, p)|;
    assert |multiset(xs)| == |xs|;
    if x :| x in xs && p(x) {
      assert x in chosen;
      assert chosen[0] in chosen;
    }
  }

  lemma {:induction false} ProjectExact(fixed: Fixed, candidates: seq<Json>, chosen: Json -> bool,
            configurations: Option<seq<Json>>,
      matching: Json -> bool, devices: seq<Json>, capabilities: seq<Capability>, level: Level, setup: SetupRead,
          provider: Option<Provider>)
    ensures Exact(Project(fixed, candidates, chosen, configurations, matching, devices, capabilities, level, setup,
                provider))
  {
    SelectedFirstKeeps(candidates, chosen);
    if configurations.Some? {
      SelectedFirstKeeps(configurations.value, matching);
    } else {
      SelectedFirstKeeps([], matching);
    }
  }

  /**
   The selected implementation is shown first in every report that is not the blank one, however many
   candidates there are.
   */
  lemma {:induction false} SelectedRowSurvives(limitations: Json, fixed: Fixed, candidates: seq<Json>,
            chosen: Json -> bool,
      configurations: Option<seq<Json>>, matching: Json -> bool, devices: seq<Json>, capabilities: seq<Capability>,
      level: Level, setup: SetupRead, provider: Option<Provider>)
    requires exists x :: x in candidates && chosen(x)
    ensures var y := Bounded(limitations,
                       Project(fixed, candidates, chosen, configurations, matching, devices, capabilities, level,
                               setup, provider));
            y == Blank(limitations) || (y.implementations != [] && chosen(y.implementations[0]))
  {
    hide Blank, Size;
    var r := Project(fixed, candidates, chosen, configurations, matching, devices, capabilities, level, setup,
            provider);
    ProjectExact(fixed, candidates, chosen, configurations, matching, devices, capabilities, level, setup, provider);
    SelectedFirstKeeps(candidates, chosen);
    BoundedKeeps(limitations, r);
  }
}
