/**
 The simulated Node from its empty session: concrete runs, under hashes that exist, in which what
 was served is taken back, two runs are open, or a file is spoiled by an append that succeeds.
 */
module SimulationExamples {
  import opened Options
  import opened Texts
  import opened JsonText
  import opened Digests
  import opened RunContract
  import opened RunDepth
  import opened SimulationNode
  import opened SimulationRecords
  import opened SimulationStore
  import opened SimulationSafety
  import opened SimulationRuns
  import opened SimulationFiles
  import opened SimulationProgress

  // ---------- a routed transfer ----------

  function Transfer(): Json {
    Obj([Pair(T("source"), Str(T("rack"))), Pair(T("destination"), Str(T("bench")))])
  }

  lemma {:induction false} SortTwo<U>(ps: seq<Pair<U>>)
    requires |ps| == 2
    ensures SortByKey(ps) == ps || SortByKey(ps) == [ps[1], ps[0]]
  {
    assert ps[1..] == [ps[1]] && [ps[1]][1..] == [];
    assert SortByKey(ps[1..]) == [ps[1]];
    assert Insert(ps[0], []) == [ps[0]];
  }

  lemma {:induction false} TwoMembers(ms: seq<Pair<Json>>)
    requires |ms| == 2
    ensures |Print(Obj(ms))|
            == |Quote(ms[0].key)| + |Print(ms[0].value)| + |Quote(ms[1].key)| + |Print(ms[1].value)| + 5
  {
    hide Quote;
    var ps: seq<Pair<Text>> := PrintValues(ms);
    assert ms[1..][1..] == [];
    assert PrintValues(ms[1..]) == [Pair(ms[1].key, Print(ms[1].value))];
    assert ps == [Pair(ms[0].key, Print(ms[0].value)), Pair(ms[1].key, Print(ms[1].value))];
    SortTwo(ps);
    var qs: seq<Pair<Text>> := SortByKey(ps);
    assert qs[1..][1..] == [] && Members(qs[1..]) == [Member(qs[1])];
    assert Members(qs) == [Member(qs[0]), Member(qs[1])];
    assert [Member(qs[0]), Member(qs[1])][1..] == [Member(qs[1])];
    assert Join(Members(qs)) == Member(qs[0]) + [COMMA] + Member(qs[1]);
    assert Print(Obj(ms)) == T("{") + Join(Members(qs)) + T("}");
    assert |Member(ps[0])| == |Quote(ms[0].key)| + 1 + |Print(ms[0].value)|;
    assert |Member(ps[1])| == |Quote(ms[1].key)| + 1 + |Print(ms[1].value)|;
  }

  lemma {:induction false} ShortText(s: string)
    requires |s| <= 512
    ensures Printable(Str(T(s)), 1, COMPARE_DEPTH) && |Quote(T(s))| <= 6 * |s| + 2
  {
    LiteralWellFormed(s);
    EscapedLength(T(s));
  }

  lemma {:induction false} TransferNames()
    ensures HasText(Transfer(), T("source")) && HasText(Transfer(), T("destination")) && Proper(Transfer())
  {
    hide T;
    var ms := Transfer().members;
    NamesDiffer("source", "destination");
    assert Lookup(ms, T("source")) == Some(Str(T("rack")));
    assert ms[1..][0] == ms[1];
    assert Lookup(ms[1..], T("destination")) == Some(Str(T("bench")));
  }

  lemma {:induction false} TransferPrints()
    ensures Printable(Transfer(), 0, COMPARE_DEPTH)
  {
    hide T, PrintableMember;
    ShortText("rack");
    ShortText("bench");
    NamedPrintable("source", Str(T("rack")), 1, COMPARE_DEPTH);
    NamedPrintable("destination", Str(T("bench")), 1, COMPARE_DEPTH);
    TwoPrintable(Transfer().members, 0, COMPARE_DEPTH);
  }

  lemma {:induction false} TransferLength()
    ensures |Print(Transfer())| <= 200
  {
    hide T, Quote, Printable;
    ShortText("source");
    ShortText("destination");
    ShortText("rack");
    ShortText("bench");
    TwoMembers(Transfer().members);
  }

  lemma {:induction false} TransferServes()
    ensures JsonObject(Transfer()) && Trip(Transfer())
  {
    hide Print, Printable, HasText, Proper, Utf8Length;
    TransferNames();
    TransferPrints();
    TransferLength();
    Utf8AtMostThrice(Print(Transfer()));
  }

  // ---------- building a history ----------

  /** All readings of a step at the epoch. */
  function AtOnce(first: Append, second: Append): Clock { Clock(0, 0, 0, 0, first, second, []) }

  function RunIdOf(digit: Unit): Text
    requires HexUnit(digit)
  {
    HexText("run-", digit, 32)
  }

  function DigestOf(digit: Unit): Text
    requires HexUnit(digit)
  {
    HexText("sha256:", digit, 64)
  }

  lemma HexPlain(digit: Unit)
    requires HexUnit(digit)
    ensures Plain(RunIdOf(digit)) && Plain(DigestOf(digit)) && IsRunId(RunIdOf(digit)) && IsHash(DigestOf(digit))
  {
    AsciiPlain(RunIdOf(digit));
    AsciiPlain(DigestOf(digit));
  }

  function ThisSite(): Site { Site(DigestOf(0x30), DigestOf(0x31)) }

  function Preparing(digit: Unit): Step
    requires HexUnit(digit)
  {
    DoPrepare(RunIdOf(digit), Transfer(), DigestOf(digit), DigestOf(digit))
  }

  function First(): Step { Preparing(0x61) }

  function Second(): Step { Preparing(0x62) }

  function FiresLast(n: Node): Step { TimerFires(if n.timers == [] then 0 else |n.timers| - 1, false) }

  /** A hash under which everything holds, on this site. */
  lemma SomeHash() returns (h: Hash)
    ensures Guards(h, ThisSite()) && ShortHash(h) && SitePlain(ThisSite()) && HexHash(h)
  {
    hide T, Plain, ShortHash, Guards, HexHash, HexText;
    HashesServe(ThisSite());
    h :| ShortHash(h) && Guards(h, ThisSite()) && HexHash(h);
    HexPlain(0x30);
    HexPlain(0x31);
  }

  /** The moves form a history that ends in n, at the epoch. */
  ghost predicate LeadsTo(h: Hash, moves: seq<Move>, n: Node) {
    History(h, ThisSite(), moves) && After(h, ThisSite(), moves, |moves|) == n && n.time == 0
  }

  /** One more move, at the epoch. */
  lemma {:induction false} OneMore(h: Hash, moves: seq<Move>, n: Node, e: Step, first: Append, second: Append)
    returns (more: seq<Move>)
    requires LeadsTo(h, moves, n) && Sensible(n, e)
    ensures more == moves + [Move(e, AtOnce(first, second))] && After(h, ThisSite(), more, |moves|) == n
    ensures LeadsTo(h, more, Next(h, ThisSite(), n, e, AtOnce(first, second)))
  {
    hide Next, Guards, ShortHash, SitePlain, Sensible, ThisSite, Ticks;
    more := moves + [Move(e, AtOnce(first, second))];
    assert more[..|moves|] == moves;
    forall i | 0 <= i <= |moves| ensures After(h, ThisSite(), more, i) == After(h, ThisSite(), moves, i) {
      SameStart(h, moves, more, i);
    }
    TicksAtOnce(first, second);
    EndsAtOnce(h, n, e, first, second);
    forall i | 0 <= i < |more| ensures MoveFits(After(h, ThisSite(), more, i), more[i]) {
      if i < |moves| { assert more[i] == moves[i]; }
    }
  }

  lemma {:induction false} SameStart(h: Hash, moves: seq<Move>, more: seq<Move>, i: nat)
    requires i <= |moves| <= |more| && more[..|moves|] == moves
    ensures After(h, ThisSite(), more, i) == After(h, ThisSite(), moves, i)
  {
    hide Next;
    if i > 0 {
      SameStart(h, moves, more, i - 1);
      assert more[..|moves|][i - 1] == more[i - 1];
    }
  }

  lemma EndsAtOnce(h: Hash, n: Node, e: Step, first: Append, second: Append)
    ensures Next(h, ThisSite(), n, e, AtOnce(first, second)).time == 0
  {
    hide Act;
  }

  lemma Start(h: Hash)
    requires Guards(h, ThisSite()) && ShortHash(h) && SitePlain(ThisSite())
    ensures LeadsTo(h, [], Empty) && Inv(h, ThisSite(), Empty)
    ensures Empty.open && Intact(Empty) && !AnyOpen(Empty.store.runs) && Empty.time == 0
    ensures forall id :: Find(Empty.store.runs, id).None?
  {
    hide Guards, ShortHash, SitePlain, Inv, ThisSite;
    EmptyInv(h, ThisSite());
  }

  lemma PreparingSensible(n: Node, digit: Unit)
    requires HexUnit(digit) && Find(n.store.runs, RunIdOf(digit)).None?
    ensures Sensible(n, Preparing(digit)) && Preparing(digit).DoPrepare? && Preparing(digit).id == RunIdOf(digit)
    ensures Preparing(digit).inputs == Transfer()
  {
    hide T, Plain, Trip, HexText;
    HexPlain(digit);
    TransferServes();
  }

  lemma FirstPrepares()
    ensures var e := First();
            && Sensible(Empty, e) && e.DoPrepare? && e.id == RunIdOf(0x61) && JsonObject(e.inputs)
  {
    hide T, Plain, Trip, HexText, JsonObject;
    TransferServes();
    PreparingSensible(Empty, 0x61);
  }

  lemma SecondPrepares(n: Node)
    requires Find(n.store.runs, Second().id).None?
    ensures var e := Second();
            && Sensible(n, e) && e.DoPrepare? && e.id == RunIdOf(0x62) && e.id != First().id
            && JsonObject(e.inputs)
  {
    assert RunIdOf(0x61)[4] != RunIdOf(0x62)[4];
    hide T, Plain, Trip, HexText, JsonObject;
    TransferServes();
    PreparingSensible(n, 0x62);
  }

  lemma OtherSensible(n: Node, e: Step)
    requires !e.DoPrepare?
    ensures Sensible(n, e)
  {
  }

  lemma TicksAtOnce(first: Append, second: Append)
    ensures var c := AtOnce(first, second);
            && Ticks(0, c) && AllAppended(c.marks) && c.d == 0 && c.b < c.a + 60000
            && c.first == first && c.second == second
  {
  }

  // ---------- the runs ----------

  /** Six moves from the empty session: a verified success is served, and then an unknown outcome of the same run. */
  lemma {:induction false} ServedSuccessTakenBack() returns (h: Hash, moves: seq<Move>)
    ensures HexHash(h) && History(h, ThisSite(), moves) && |moves| == 6
    ensures var served, reloaded, id := After(h, ThisSite(), moves, 5), After(h, ThisSite(), moves, 6), RunIdOf(0x61);
            && served.open && Succeeds(served, id) && reloaded.open && EndsUnknown(reloaded, id)
  {
    hide *;
    h := SomeHash();
    Start(h);
    FirstPrepares();
    var site, e, well, lost := ThisSite(), First(), AtOnce(Appended, Appended), AtOnce(Appended, Lost);
    TicksAtOnce(Appended, Appended);
    TicksAtOnce(Appended, Lost);
    var runDigest, served, reloaded := SuccessTakenBack(h, site, Empty, e.id, e.inputs, e.route, e.approval,
            well, well, well, well, lost, well);
    moves := Approving(h, e, runDigest);
    var n := Next(h, site, Next(h, site, Empty, e, well),
            DoApprove(e.id, runDigest, e.approval, true, Some(e.route)), well);
    moves, n := FireOnce(h, moves, n, Appended);
    moves, n := FireOnce(h, moves, n, Appended);
    moves, n := FireOnce(h, moves, n, Lost);
    assert n == served;
    OtherSensible(n, HostRestarts);
    moves := OneMore(h, moves, n, HostRestarts, Appended, Appended);
    LeadsIn(h, moves, reloaded);
  }

  lemma LeadsIn(h: Hash, moves: seq<Move>, n: Node)
    requires LeadsTo(h, moves, n)
    ensures History(h, ThisSite(), moves) && After(h, ThisSite(), moves, |moves|) == n
  {
    hide History, After, ThisSite;
  }

  /** Preparing and approving, from the empty session. */
  lemma {:induction false} Approving(h: Hash, e: Step, runDigest: Text) returns (moves: seq<Move>)
    requires LeadsTo(h, [], Empty) && Sensible(Empty, e) && e.DoPrepare?
    ensures |moves| == 2
    ensures var well := AtOnce(Appended, Appended);
            var prepared := Next(h, ThisSite(), Empty, e, well);
            LeadsTo(h, moves, Next(h, ThisSite(), prepared,
                            DoApprove(e.id, runDigest, e.approval, true, Some(e.route)), well))
  {
    hide Sensible, Next, LeadsTo, ThisSite;
    var prepared := Next(h, ThisSite(), Empty, e, AtOnce(Appended, Appended));
    moves := OneMore(h, [], Empty, e, Appended, Appended);
    OtherSensible(prepared, DoApprove(e.id, runDigest, e.approval, true, Some(e.route)));
    moves := OneMore(h, moves, prepared, DoApprove(e.id, runDigest, e.approval, true, Some(e.route)),
            Appended, Appended);
  }

  lemma {:induction false} FireOnce(h: Hash, moves: seq<Move>, n: Node, second: Append)
    returns (more: seq<Move>, m: Node)
    requires LeadsTo(h, moves, n)
    ensures LeadsTo(h, more, m) && |more| == |moves| + 1 && m == FireLast(h, ThisSite(), n, AtOnce(Appended, second))
  {
    hide LeadsTo, Next, ThisSite, Sensible;
    OtherSensible(n, FiresLast(n));
    more := OneMore(h, moves, n, FiresLast(n), Appended, second);
    m := FireLast(h, ThisSite(), n, AtOnce(Appended, second));
  }

  /** Four moves: a confirmed Stop is served, and then an unknown outcome of the same run. */
  lemma {:induction false} ServedStopTakenBack() returns (h: Hash, moves: seq<Move>)
    ensures HexHash(h) && History(h, ThisSite(), moves) && |moves| == 4
    ensures var served, reloaded, id := After(h, ThisSite(), moves, 3), After(h, ThisSite(), moves, 4), RunIdOf(0x61);
            && served.open && Cancels(served, id) && reloaded.open && EndsUnknown(reloaded, id)
  {
    hide *;
    h := SomeHash();
    Start(h);
    FirstPrepares();
    var site, e, well, lost := ThisSite(), First(), AtOnce(Appended, Appended), AtOnce(Lost, Appended);
    TicksAtOnce(Appended, Appended);
    TicksAtOnce(Lost, Appended);
    var runDigest, served, reloaded := StopTakenBack(h, site, Empty, e.id, e.inputs, e.route, e.approval,
            well, well, lost, well);
    moves := Approving(h, e, runDigest);
    var n := Next(h, site, Next(h, site, Empty, e, well),
            DoApprove(e.id, runDigest, e.approval, true, Some(e.route)), well);
    OtherSensible(n, DoStop(e.id));
    moves := OneMore(h, moves, n, DoStop(e.id), Lost, Appended);
    OtherSensible(served, HostRestarts);
    moves := OneMore(h, moves, served, HostRestarts, Appended, Appended);
    LeadsIn(h, moves, reloaded);
  }

  /** Four moves after which two runs wait for approval. */
  lemma {:induction false} TwoRunsOpen() returns (h: Hash, moves: seq<Move>)
    ensures HexHash(h) && History(h, ThisSite(), moves) && |moves| == 4
    ensures var n := After(h, ThisSite(), moves, 4); n.open && Waits(n, RunIdOf(0x61)) && Waits(n, RunIdOf(0x62))
  {
    hide *;
    h := SomeHash();
    Start(h);
    FirstPrepares();
    SecondPrepares(Empty);
    var site, a, b, well := ThisSite(), First(), Second(), AtOnce(Appended, Appended);
    TicksAtOnce(Appended, Appended);
    TicksAtOnce(Lost, Appended);
    var stopped, m := TwoMayBeOpen(h, site, Empty, a, b, well, AtOnce(Lost, Appended), well, well);
    moves := Stopping(h, a, Appended, Lost);
    SecondPrepares(stopped);
    moves := OneMore(h, moves, stopped, b, Appended, Appended);
    var n := Next(h, site, stopped, b, well);
    OtherSensible(n, HostRestarts);
    moves := OneMore(h, moves, n, HostRestarts, Appended, Appended);
    LeadsIn(h, moves, m);
  }

  /** Preparing and then stopping, from the empty session. */
  lemma {:induction false} Stopping(h: Hash, e: Step, first: Append, second: Append) returns (moves: seq<Move>)
    requires LeadsTo(h, [], Empty) && Sensible(Empty, e) && e.DoPrepare?
    ensures |moves| == 2
    ensures var prepared := Next(h, ThisSite(), Empty, e, AtOnce(first, Appended));
            LeadsTo(h, moves, Next(h, ThisSite(), prepared, DoStop(e.id), AtOnce(second, Appended)))
    ensures moves[1] == Move(DoStop(e.id), AtOnce(second, Appended))
  {
    hide Sensible, Next, LeadsTo, ThisSite;
    var prepared := Next(h, ThisSite(), Empty, e, AtOnce(first, Appended));
    moves := OneMore(h, [], Empty, e, first, Appended);
    OtherSensible(prepared, DoStop(e.id));
    moves := OneMore(h, moves, prepared, DoStop(e.id), second, Appended);
  }

  /** Three moves: a Stop whose append succeeds is served, and the session does not load again. */
  lemma {:induction false} SessionLostToSuccess() returns (h: Hash, moves: seq<Move>)
    ensures HexHash(h) && History(h, ThisSite(), moves) && |moves| == 3
    ensures moves[1].step == DoStop(RunIdOf(0x61)) && moves[1].clock.first.Appended? && moves[2].step.HostRestarts?
    ensures var stopped := After(h, ThisSite(), moves, 2);
            stopped.open && Cancels(stopped, RunIdOf(0x61)) && !After(h, ThisSite(), moves, 3).open
  {
    hide *;
    h := SomeHash();
    Start(h);
    FirstPrepares();
    var site, e, well := ThisSite(), First(), AtOnce(Appended, Appended);
    TicksAtOnce(Cut, Appended);
    TicksAtOnce(Appended, Appended);
    var prepared, reloaded, stopped := SuccessSpoilsFile(h, site, Empty, e, AtOnce(Cut, Appended), well, well);
    moves := Stopping(h, e, Cut, Appended);
    OtherSensible(stopped, HostRestarts);
    moves := OneMore(h, moves, stopped, HostRestarts, Appended, Appended);
    LeadsIn(h, moves, Next(h, site, stopped, HostRestarts, well));
  }
}
