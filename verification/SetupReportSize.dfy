/**
 The size of the report that is returned: the change of its status text adds 33 bytes after the
 limit was checked.
 */
module SetupReportSizes {
  import opened Options
  import opened Texts
  import opened JsonText
  import opened JsonSize
  import opened SetupReports
  import opened SetupReportFacts

  const RELABEL_BYTES := 33

  lemma SizeIsBytes(r: Report)
    ensures Size(r) == Bytes(ReportJson(r))
  {
    hide ReportJson;
    SerialBytes(ReportJson(r));
  }

  lemma {:induction false} MemberBytesAdd(a: seq<Pair<Json>>, b: seq<Pair<Json>>)
    ensures MemberBytes(a + b) == MemberBytes(a) + MemberBytes(b)
  {
    if a == [] {
      assert a + b == b;
    } else {
      assert (a + b)[1..] == a[1..] + b;
      MemberBytesAdd(a[1..], b);
    }
  }

  lemma TwoMembers(p: Pair<Json>, q: Pair<Json>)
    ensures MemberBytes([p, q]) == QuoteBytes(p.key) + Bytes(p.value) + QuoteBytes(q.key) + Bytes(q.value) + 4
  {
    assert [p, q][1..] == [q];
    OneMember(q);
  }

  lemma OneMember(p: Pair<Json>)
    ensures MemberBytes([p]) == QuoteBytes(p.key) + Bytes(p.value) + 2
  {
    assert [p][1..] == [];
  }

  lemma FiveMembers(ms: seq<Pair<Json>>)
    requires |ms| == 5
    ensures MemberBytes(ms) == QuoteBytes(ms[0].key) + Bytes(ms[0].value) + QuoteBytes(ms[1].key) + Bytes(ms[1].value)
                             + MemberBytes(ms[2..4]) + QuoteBytes(ms[4].key) + Bytes(ms[4].value) + 6
  {
    assert ms == ms[..2] + ms[2..4] + ms[4..];
    MemberBytesAdd(ms[..2] + ms[2..4], ms[4..]);
    MemberBytesAdd(ms[..2], ms[2..4]);
    assert ms[..2] == [ms[0], ms[1]];
    TwoMembers(ms[0], ms[1]);
    assert ms[4..] == [ms[4]];
    OneMember(ms[4]);
  }

  /** The bytes of the status text: its three strings. */
  function LabelBytes(level: Level): nat {
    Bytes(Str(StatusText(level))) + Bytes(Str(ReasonCode(level))) + Bytes(Str(Message(level)))
  }

  lemma {:induction false} InspectionBytes(level: Level, other: Level, f: Fixed)
    ensures Bytes(InspectionJson(level, f)) - LabelBytes(level) == Bytes(InspectionJson(other, f)) - LabelBytes(other)
  {
    hide StatusText, ReasonCode, Message, T, QuoteBytes;
    FiveMembers(InspectionJson(level, f).members);
    FiveMembers(InspectionJson(other, f).members);
    assert InspectionJson(level, f).members[2..4] == InspectionJson(other, f).members[2..4];
  }

  lemma InspectedPlain()
    ensures Unescaped(INSPECTED) && |INSPECTED| == 89
  {
    UnescapedAppend("Setup records inspected ", "without refreshing ");
    UnescapedAppend("Setup records inspected " + "without refreshing ", "discovery, routing, ");
    UnescapedAppend("Setup records inspected " + "without refreshing " + "discovery, routing, ",
            "configuration or hardware.");
  }

  lemma PartialStart()
    ensures Unescaped("Only part of the setup " + "can be inspected from " + "the available records. ")
    ensures |"Only part of the setup " + "can be inspected from " + "the available records. "| == 68
  {
    UnescapedAppend("Only part of the setup ", "can be inspected from ");
    UnescapedAppend("Only part of the setup " + "can be inspected from ", "the available records. ");
  }

  lemma PartialEnd()
    ensures Unescaped("Resolve the listed " + "evidence gaps; " + "no readiness is assumed.")
    ensures |"Resolve the listed " + "evidence gaps; " + "no readiness is assumed."| == 58
  {
    UnescapedAppend("Resolve the listed ", "evidence gaps; ");
    UnescapedAppend("Resolve the listed " + "evidence gaps; ", "no readiness is assumed.");
  }

  lemma PartialPlain()
    ensures Unescaped(PARTIAL) && |PARTIAL| == 126
  {
    PartialStart();
    PartialEnd();
    hide Unescaped;
    var start := "Only part of the setup " + "can be inspected from " + "the available records. ";
    var end := "Resolve the listed " + "evidence gaps; " + "no readiness is assumed.";
    UnescapedAppend(start, end);
    assert start + "Resolve the listed " + "evidence gaps; " + "no readiness is assumed." == start + end;
  }

  /** Two bytes less for the status, two less for the reason, 37 more for the message. */
  lemma LabelsDiffer()
    ensures LabelBytes(Partial) == LabelBytes(Available) + RELABEL_BYTES
  {
    PlainBytes("available");
    PlainBytes("inspected");
    PlainBytes("partial");
    InspectedPlain();
    PartialPlain();
    hide Unescaped, T, QuoteBytes;
    PlainBytes(INSPECTED);
    PlainBytes(PARTIAL);
  }

  function HeadBytes(): nat {
    QuoteBytes(T("contractVersion")) + Bytes(Str(T("physicalsystems-setup-inspection-v1")))
    + QuoteBytes(T("inspection")) + 5
  }

  lemma {:induction false} ReportBytes(r: Report)
    ensures Bytes(ReportJson(r)) == HeadBytes() + Bytes(InspectionJson(r.level, r.fixed)) + MemberBytes(OtherMembers(r))
  {
    hide OtherMembers, InspectionJson, T, QuoteBytes;
    var first := Pair(T("contractVersion"), Str(T("physicalsystems-setup-inspection-v1")));
    var second := Pair(T("inspection"), InspectionJson(r.level, r.fixed));
    MemberBytesAdd([first, second], OtherMembers(r));
    TwoMembers(first, second);
  }

  /** The status text of an available report takes 33 bytes more once it says partial. */
  lemma {:induction false} RelabelAdds(r: Report)
    requires r.level.Available?
    ensures Size(r.(level := Partial)) == Size(r) + RELABEL_BYTES
  {
    var q := r.(level := Partial);
    assert OtherMembers(q) == OtherMembers(r);
    hide *;
    SizeIsBytes(r);
    SizeIsBytes(q);
    ReportBytes(r);
    ReportBytes(q);
    InspectionBytes(Available, Partial, r.fixed);
    LabelsDiffer();
  }

  // ---------- past the limit ----------

  /** A pass changes neither the level, nor the setup read, nor whether the label will be changed. */
  lemma {:induction false} FirstFitRelabels(r: Report, x: Report)
    requires Shrunk(r) == Some(x)
    ensures Relabels(x, Size(r) > MAX_REPORT_BYTES) <==> Relabels(r, Size(r) > MAX_REPORT_BYTES)
    ensures x.level == r.level && Size(x) <= MAX_REPORT_BYTES
  {
    hide Size, Drop, Trimmed, Exact, Conserved, Rows;
    var n := StopsAtFirstFit(r);
    DroppedKeeps(r, n);
    assert x.setup == r.setup by { TrimmedSetup(x, r); }
  }

  lemma TrimmedSetup(x: Report, r: Report)
    requires Trimmed(x, r)
    ensures x.setup == r.setup
  {
  }

  /**
   The returned report is past its limit exactly when its label is changed, that is, the records
   were available but a row was dropped, something was omitted or the setup read failed, and the
   first report that fits has fewer than 33 bytes to spare; it is never past it by more than 33.
   */
  lemma {:induction false} BoundedExceedsIff(limitations: Json, r: Report, x: Report)
    requires Shrunk(r) == Some(x)
    ensures Size(Bounded(limitations, r)) > MAX_REPORT_BYTES
            <==> Relabels(r, Size(r) > MAX_REPORT_BYTES) && Size(x) > MAX_REPORT_BYTES - RELABEL_BYTES
    ensures Size(Bounded(limitations, r)) <= MAX_REPORT_BYTES + RELABEL_BYTES
  {
    hide Size, Shrunk, Relabels;
    FirstFitRelabels(r, x);
    if Relabels(x, Size(r) > MAX_REPORT_BYTES) {
      RelabelsAvailable(x, Size(r) > MAX_REPORT_BYTES);
      RelabelAdds(x);
    }
  }

  lemma RelabelsAvailable(x: Report, truncated: bool)
    ensures Relabels(x, truncated) ==> x.level.Available?
  {
  }

  // ---------- a report that goes past it ----------

  const MAX_CODES := 64
  const CODE_LENGTH := 30

  /** A reason code of 30 letters: with its quotes and its comma it takes 33 bytes. */
  function Code(): (t: Text)
    ensures |t| == CODE_LENGTH && forall i :: 0 <= i < |t| ==> t[i] == 0x61
  {
    seq(CODE_LENGTH, _ => 0x61)
  }

  function Codes(n: nat): seq<Text> { seq(n, _ => Code()) }

  /** The first capabilities carry 64 codes each, the next one the rest, the others none. */
  function Filled(cs: seq<Capability>, n: nat): seq<Capability> {
    if cs == [] then []
    else if n <= MAX_CODES then [cs[0].(codes := Codes(n))] + cs[1..]
    else [cs[0].(codes := Codes(MAX_CODES))] + Filled(cs[1..], n - MAX_CODES)
  }

  predicate NoCodes(cs: seq<Capability>) { forall i :: 0 <= i < |cs| ==> cs[i].codes == [] }

  /** The same capability but for at most 64 reason codes, each an identifier of 30 letters. */
  predicate OnlyCodes(c: Capability, d: Capability) {
    c.(codes := d.codes) == d && |c.codes| <= MAX_CODES && forall i :: 0 <= i < |c.codes| ==> c.codes[i] == Code()
  }

  lemma CodeBytes()
    ensures QuoteBytes(Code()) == RELABEL_BYTES - 1
  {
    NothingEscaped(Code());
    AsciiBytes(Code());
  }

  lemma {:induction false} CodesBytes(n: nat)
    ensures ItemBytes(Quoted(Codes(n))) == RELABEL_BYTES * n && |Quoted(Codes(n))| == n
  {
    CodeBytes();
    hide QuoteBytes, Code;
    if n > 0 {
      assert Codes(n)[1..] == Codes(n - 1);
      assert Codes(n)[0] == Code();
      CodesBytes(n - 1);
    }
  }

  lemma {:induction false} CapabilityBytes(c: Capability, n: nat)
    requires c.codes == []
    ensures Bytes(CapabilityJson(c.(codes := Codes(n)))) - Bytes(CapabilityJson(c)) == if n
            == 0 then 0 else RELABEL_BYTES * n - 1
  {
    var q := c.(codes := Codes(n));
    var a, b := CapabilityJson(c).members, CapabilityJson(q).members;
    hide T, QuoteBytes;
    CodesBytes(n);
    MemberReplaced(a, b, 3);
  }

  /** Each further code adds 32 or 33 bytes. */
  lemma {:induction false} FilledStep(cs: seq<Capability>, n: nat)
    requires NoCodes(cs) && n < MAX_CODES * |cs|
    ensures var more := ItemBytes(CapabilitiesJson(Filled(cs, n + 1))) - ItemBytes(CapabilitiesJson(Filled(cs, n)));
            RELABEL_BYTES - 1 <= more <= RELABEL_BYTES
  {
    hide CapabilityJson, Codes, CapabilitiesJson, ItemBytes, Bytes;
    if n < MAX_CODES {
      CapabilityBytes(cs[0], n);
      CapabilityBytes(cs[0], n + 1);
      FirstCapability(cs[0].(codes := Codes(n)), cs[1..]);
      FirstCapability(cs[0].(codes := Codes(n + 1)), cs[1..]);
    } else if n == MAX_CODES {
      FilledNone(cs[1..]);
      FilledStep(cs[1..], 0);
      FirstCapability(cs[0].(codes := Codes(MAX_CODES)), cs[1..]);
      FirstCapability(cs[0].(codes := Codes(MAX_CODES)), Filled(cs[1..], 1));
    } else {
      FilledStep(cs[1..], n - MAX_CODES);
      FirstCapability(cs[0].(codes := Codes(MAX_CODES)), Filled(cs[1..], n - MAX_CODES));
      FirstCapability(cs[0].(codes := Codes(MAX_CODES)), Filled(cs[1..], n + 1 - MAX_CODES));
    }
  }

  lemma FirstCapability(c: Capability, cs: seq<Capability>)
    ensures ItemBytes(CapabilitiesJson([c] + cs)) == Bytes(CapabilityJson(c)) + 1 + ItemBytes(CapabilitiesJson(cs))
  {
    assert ([c] + cs)[1..] == cs;
    assert CapabilitiesJson([c] + cs)[1..] == CapabilitiesJson(cs);
  }

  lemma {:induction false} FilledNone(cs: seq<Capability>)
    requires NoCodes(cs)
    ensures Filled(cs, 0) == cs
  {
    if cs != [] { assert Codes(0) == []; assert cs[0].(codes := []) == cs[0]; }
  }

  lemma {:induction false} FilledShape(cs: seq<Capability>, n: nat)
    requires NoCodes(cs)
    ensures |Filled(cs, n)| == |cs| && forall i :: 0 <= i < |cs| ==> OnlyCodes(Filled(cs, n)[i], cs[i])
  {
    if cs != [] && n > MAX_CODES { FilledShape(cs[1..], n - MAX_CODES); }
  }

  function WithCodes(r: Report, n: nat): Report { r.(capabilities := Filled(r.capabilities, n)) }

  lemma {:induction false} CapabilitiesSize(r: Report, q: Report)
    requires q == r.(capabilities := q.capabilities) && r.capabilities != [] && q.capabilities != []
    ensures Size(q) - Size(r)
            == ItemBytes(CapabilitiesJson(q.capabilities)) - ItemBytes(CapabilitiesJson(r.capabilities))
  {
    OnlyCapabilitiesDiffer(r, q);
    ReportBytes(r);
    ReportBytes(q);
    hide *;
    SizeIsBytes(r);
    SizeIsBytes(q);
    MemberReplaced(OtherMembers(r), OtherMembers(q), 3);
    ListBytes(CapabilitiesJson(r.capabilities), CapabilitiesJson(q.capabilities)) by {
      CapabilitiesThere(r.capabilities);
      CapabilitiesThere(q.capabilities);
    }
  }

  lemma CapabilitiesThere(cs: seq<Capability>)
    requires cs != []
    ensures CapabilitiesJson(cs) != []
  {
  }

  lemma ListBytes(a: seq<Json>, b: seq<Json>)
    requires a != [] && b != []
    ensures Bytes(Arr(b)) - Bytes(Arr(a)) == ItemBytes(b) - ItemBytes(a)
  {
  }

  lemma OnlyCapabilitiesDiffer(r: Report, q: Report)
    requires q == r.(capabilities := q.capabilities)
    ensures var a, b := OtherMembers(r), OtherMembers(q);
            && |a| == |b| == 13 && (forall i :: 0 <= i < 13 && i != 3 ==> a[i] == b[i])
            && a[3].key == b[3].key && a[3].value == Arr(CapabilitiesJson(r.capabilities))
            && b[3].value == Arr(CapabilitiesJson(q.capabilities))
    ensures q.level == r.level && q.fixed == r.fixed
  {
    hide T, SourceJson, SetupStatus, ProviderJson, CapabilityJson;
  }

  lemma {:induction false} MemberReplaced(a: seq<Pair<Json>>, b: seq<Pair<Json>>, i: nat)
    requires i < |a| == |b| && a[i].key == b[i].key && forall j :: 0 <= j < |a| && j != i ==> a[j] == b[j]
    ensures MemberBytes(b) - MemberBytes(a) == Bytes(b[i].value) - Bytes(a[i].value)
  {
    if i > 0 {
      MemberReplaced(a[1..], b[1..], i - 1);
    } else {
      assert a[1..] == b[1..];
    }
  }

  lemma {:induction false} WithCodesSize(r: Report, n: nat)
    requires NoCodes(r.capabilities) && n < MAX_CODES * |r.capabilities|
    ensures Size(WithCodes(r, n)) + RELABEL_BYTES - 1 <= Size(WithCodes(r, n + 1)) <= Size(WithCodes(r,
                n)) + RELABEL_BYTES
  {
    hide Size, CapabilitiesJson, Filled;
    FilledShape(r.capabilities, n);
    FilledShape(r.capabilities, n + 1);
    FilledStep(r.capabilities, n);
    CapabilitiesSize(WithCodes(r, n), WithCodes(r, n + 1));
  }

  lemma {:induction false} WithCodesGrows(r: Report, n: nat)
    requires NoCodes(r.capabilities) && n <= MAX_CODES * |r.capabilities|
    ensures Size(WithCodes(r, n)) >= Size(r) + (RELABEL_BYTES - 1) * n
  {
    hide Size;
    if n == 0 {
      FilledNone(r.capabilities);
    } else {
      WithCodesGrows(r, n - 1);
      WithCodesSize(r, n - 1);
    }
  }

  /** Codes can be added until the report just fits. */
  lemma {:induction false} JustFits(r: Report, n: nat) returns (k: nat)
    requires NoCodes(r.capabilities) && 0 < n <= MAX_CODES * |r.capabilities|
    requires Size(r) <= MAX_REPORT_BYTES && Size(WithCodes(r, n)) > MAX_REPORT_BYTES
    ensures k < n && MAX_REPORT_BYTES - RELABEL_BYTES < Size(WithCodes(r, k)) <= MAX_REPORT_BYTES
  {
    hide Size;
    FilledNone(r.capabilities);
    WithCodesSize(r, n - 1);
    if Size(WithCodes(r, n - 1)) > MAX_REPORT_BYTES { k := JustFits(r, n - 1); } else { k := n - 1; }
  }

  lemma SizePositive(r: Report)
    ensures Size(r) > 0
  {
    hide ReportJson, Size, InspectionJson, OtherMembers;
    SizeIsBytes(r);
    ReportBytes(r);
  }

  /**
   Every report with 32 capabilities whose setup read failed, and that is not already too large,
   can be given reason codes with which it still fits, but with which what is returned does not.
   */
  lemma {:induction false} BoundedMayExceed(limitations: Json, r: Report) returns (x: Report)
    requires r.level.Available? && r.setup.ReadFailed? && |r.capabilities| == MAX_ROWS && NoCodes(r.capabilities)
    requires Size(r) <= MAX_REPORT_BYTES
    ensures x == r.(capabilities := x.capabilities) && |x.capabilities| == MAX_ROWS
    ensures forall i :: 0 <= i < MAX_ROWS ==> OnlyCodes(x.capabilities[i], r.capabilities[i])
    ensures Size(x) <= MAX_REPORT_BYTES < Size(Bounded(limitations, x))
  {
    hide Size, Bounded, OnlyCodes;
    var n := MAX_CODES * MAX_ROWS;
    SizePositive(r);
    WithCodesGrows(r, n);
    var k := JustFits(r, n);
    x := WithCodes(r, k);
    FilledShape(r.capabilities, k);
    assert Shrunk(x) == Some(x);
    BoundedExceedsIff(limitations, x, x);
  }
}
