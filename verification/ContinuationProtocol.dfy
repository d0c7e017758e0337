/**
 Continuations of an approved experiment: a record is saved before the agent is asked, the
 process may end at any point, and a failed save may or may not have reached the file.
 */
module ContinuationProtocol {
  import opened Options
  import opened Texts

  datatype Status = Pending | Unconfirmed | Accepted

  datatype Record = Record(conversation: Text, requestId: Text, fingerprint: Text, status: Status)

  /** How one save ends: the file is replaced by renaming, so a failed save leaves the new or the old content. */
  datatype Saving = Saved | FailedKept | FailedLost

  /** What follows the first save: the second review refuses, the process ends, or the agent is asked. */
  datatype Sequel = Refused | Ended | Asked

  /** `calls` holds the request each conversation waits for; it is the conversation's lock. */
  datatype State = State(
    disk: seq<Record>, memory: seq<Record>, running: bool, storageFailed: bool, calls: map<Text, Text>)

  const Initial := State([], [], false, false, map[])

  datatype Step =
    | Continue(conversation: Text, requestId: Text, fingerprint: Text, allowed: bool, saving: Saving, sequel: Sequel,
            second: Saving)
    | Answer(conversation: Text, accepted: bool, saving: Saving)
    | OtherSave(saving: Saving)
    | Crash
    | Restart(saving: Saving)

  predicate Names(r: Record, conversation: Text, requestId: Text) {
    r.conversation == conversation && r.requestId == requestId
  }

  function Find(rs: seq<Record>, conversation: Text, requestId: Text): (r: Option<Record>)
    ensures r.Some? ==> r.value in rs && Names(r.value, conversation, requestId)
    ensures r.None? ==> forall x :: x in rs ==> !Names(x, conversation, requestId)
  {
    if rs == [] then None
    else if Names(rs[0], conversation, requestId) then Some(rs[0]) else Find(rs[1..], conversation, requestId)
  }

  function SetStatus(rs: seq<Record>, conversation: Text, requestId: Text, status: Status): seq<Record> {
    seq(|rs|, i requires 0 <= i < |rs| => if Names(rs[i], conversation, requestId) then rs[i].(status := status)
                                          else rs[i])
  }

  predicate Open(r: Record, conversation: Text, fingerprint: Text) {
    r.conversation == conversation && r.fingerprint == fingerprint && !r.status.Accepted?
  }

  predicate Blocked(rs: seq<Record>, conversation: Text, fingerprint: Text) {
    exists i :: 0 <= i < |rs| && Open(rs[i], conversation, fingerprint)
  }

  function Count(rs: seq<Record>, conversation: Text): nat {
    if rs == [] then 0 else (if rs[0].conversation == conversation then 1 else 0) + Count(rs[1..], conversation)
  }

  const MAX_RECORDS := 4096
  const MAX_PER_CONVERSATION := 256

  function Save(s: State, saving: Saving): State {
    if s.storageFailed then s
    else
      match saving
      case Saved => s.(disk := s.memory)
      case FailedKept => s.(disk := s.memory, storageFailed := true)
      case FailedLost => s.(storageFailed := true)
  }

  function Down(s: State): State { State(s.disk, [], false, false, map[]) }

  /** The records after the request is noted as pending, or None where it is refused or already answered. */
  function Noted(rs: seq<Record>, conversation: Text, requestId: Text, fingerprint: Text): Option<seq<Record>> {
    var known := Find(rs, conversation, requestId);
    if known.Some? then
      if known.value.fingerprint != fingerprint || known.value.status.Accepted? then None
      else Some(SetStatus(rs, conversation, requestId, Pending))
    else if Blocked(rs, conversation, fingerprint) || |rs| >= MAX_RECORDS
         || Count(rs, conversation) >= MAX_PER_CONVERSATION then None
    else Some(rs + [Record(conversation, requestId, fingerprint, Pending)])
  }

  function Revived(r: Record): Record { if r.status.Pending? then r.(status := Unconfirmed) else r }

  /** What a process that starts makes of the saved records. */
  function Recovered(rs: seq<Record>): seq<Record> {
    seq(|rs|, i requires 0 <= i < |rs| => Revived(rs[i]))
  }

  function Proceed(s: State, conversation: Text, requestId: Text, sequel: Sequel, second: Saving): State {
    match sequel
    case Ended => Down(s)
    case Asked => s.(calls := s.calls[conversation := requestId])
    case Refused => Save(s.(memory := SetStatus(s.memory, conversation, requestId, Unconfirmed)), second)
  }

  function Next(s: State, e: Step): State {
    match e
    case Continue(conversation, requestId, fingerprint, allowed, saving, sequel, second) =>
      var noted := Noted(s.memory, conversation, requestId, fingerprint);
      if !s.running || s.storageFailed || !allowed || conversation in s.calls || noted.None? then s
      else
        var t := Save(s.(memory := noted.value), saving);
        if t.storageFailed then t else Proceed(t, conversation, requestId, sequel, second)
    case Answer(conversation, accepted, saving) =>
      if !s.running || conversation !in s.calls then s
      else
        var requestId := s.calls[conversation];
        var idle := s.(calls := s.calls - {conversation});
        var t := Save(idle.(memory := SetStatus(s.memory, conversation, requestId,
                if accepted then Accepted else Unconfirmed)), saving);
        if t.storageFailed then t.(memory := SetStatus(s.memory, conversation, requestId, Unconfirmed)) else t
    case OtherSave(saving) => if s.running then Save(s, saving) else s
    case Crash => Down(s)
    case Restart(saving) =>
      if s.running then s
      else
        var t := Save(State(s.disk, Recovered(s.disk), true, false, map[]), saving);
        if t.storageFailed then Down(t) else t
  }

  // ---------- what every step keeps ----------

  ghost predicate KeysDiffer(rs: seq<Record>) {
    forall i, j :: 0 <= i < j < |rs| ==> !Names(rs[j], rs[i].conversation, rs[i].requestId)
  }

  /** Each plan of a conversation has at most one record that is not accepted. */
  ghost predicate OneOpen(rs: seq<Record>) {
    forall a, b :: a in rs && b in rs && Open(b, a.conversation, a.fingerprint) && !a.status.Accepted? ==> a == b
  }

  ghost predicate Unique(rs: seq<Record>) { KeysDiffer(rs) && OneOpen(rs) }

  /** Every waited-for request is pending in memory, and until a save fails the file holds what memory holds. */
  ghost predicate Inv(s: State) {
    && Unique(s.disk) && Unique(s.memory)
    && (s.running && !s.storageFailed ==> s.disk == s.memory)
    && (forall c :: c in s.calls ==> Find(s.memory, c, s.calls[c]).Some?
                                     && Find(s.memory, c, s.calls[c]).value.status.Pending?)
    && (!s.running ==> s.calls == map[])
  }

  /** Records only ever gain status: none disappears, and an accepted one stays accepted. */
  ghost predicate Kept(rs: seq<Record>, ss: seq<Record>) {
    forall r :: r in rs ==> exists q :: q in ss && q.(status := r.status) == r && (r.status.Accepted? ==> q == r)
  }

  lemma {:induction false} KeptSelf(rs: seq<Record>)
    ensures Kept(rs, rs)
  {
    forall r | r in rs ensures exists q :: q in rs && q.(status := r.status) == r && (r.status.Accepted? ==> q == r) {
      assert r in rs && r.(status := r.status) == r;
    }
  }

  lemma {:induction false} KeptTransitive(a: seq<Record>, b: seq<Record>, c: seq<Record>)
    requires Kept(a, b) && Kept(b, c)
    ensures Kept(a, c)
  {
    forall r | r in a ensures exists q :: q in c && q.(status := r.status) == r && (r.status.Accepted? ==> q == r) {
      var p :| p in b && p.(status := r.status) == r && (r.status.Accepted? ==> p == r);
      var q :| q in c && q.(status := p.status) == p && (p.status.Accepted? ==> q == p);
    }
  }

  lemma {:induction false} FindIs(rs: seq<Record>, r: Record)
    requires Unique(rs) && r in rs
    ensures Find(rs, r.conversation, r.requestId) == Some(r)
  {
  }

  ghost predicate SameKey(r: Record, q: Record) { Names(q, r.conversation, r.requestId) }

  lemma {:induction false} SetHolds(rs: seq<Record>, known: Record, status: Status)
    requires Unique(rs) && known in rs
    ensures forall r :: r in SetStatus(rs, known.conversation, known.requestId, status)
                        <==> r == known.(status := status) || (r in rs && !SameKey(known, r))
  {
    var ss := SetStatus(rs, known.conversation, known.requestId, status);
    forall r | r in rs ensures (SameKey(known, r) && r == known && known.(status := status) in ss)
        || (!SameKey(known, r) && r in ss) {
      var i :| 0 <= i < |rs| && rs[i] == r;
      assert ss[i] in ss;
      FindIs(rs, known);
      FindIs(rs, r);
    }
    forall r | r in ss ensures r == known.(status := status) || (r in rs && !SameKey(known, r)) {
      var i :| 0 <= i < |ss| && ss[i] == r;
      FindIs(rs, known);
      FindIs(rs, rs[i]);
    }
  }

  lemma {:induction false} SetUnique(rs: seq<Record>, known: Record, status: Status)
    requires Unique(rs) && known in rs && !known.status.Accepted?
    ensures Unique(SetStatus(rs, known.conversation, known.requestId, status))
  {
    SetHolds(rs, known, status);
    var ss, next := SetStatus(rs, known.conversation, known.requestId, status), known.(status := status);
    assert forall i :: 0 <= i < |rs| ==> ss[i].conversation == rs[i].conversation && ss[i].requestId == rs[i].requestId;
    forall a, b | a in ss && b in ss && Open(b, a.conversation, a.fingerprint) && !a.status.Accepted? ensures a == b {
      var x, y := if a == next then known else a, if b == next then known else b;
      assert x in rs && y in rs && Open(y, x.conversation, x.fingerprint);
    }
  }

  /** Changing the status of one record that is not accepted. */
  lemma {:induction false} SetKeeps(rs: seq<Record>, conversation: Text, requestId: Text, status: Status)
    requires Unique(rs) && Find(rs, conversation, requestId).Some?
             && !Find(rs, conversation, requestId).value.status.Accepted?
    ensures Unique(SetStatus(rs, conversation, requestId, status))
            && Kept(rs, SetStatus(rs, conversation, requestId, status))
    ensures Find(SetStatus(rs, conversation, requestId, status), conversation, requestId)
         == Some(Find(rs, conversation, requestId).value.(status := status))
    ensures forall r :: r in rs && !Names(r, conversation, requestId) ==>
                          r in SetStatus(rs, conversation, requestId, status)
  {
    var known := Find(rs, conversation, requestId).value;
    SetHolds(rs, known, status);
    SetUnique(rs, known, status);
    var ss := SetStatus(rs, conversation, requestId, status);
    hide Unique, SetStatus;
    FindIs(ss, known.(status := status)) by { assert known.(status := status) in ss; }
    forall r | r in rs ensures exists q :: q in ss && q.(status := r.status) == r && (r.status.Accepted? ==> q == r) {
      var q := if SameKey(known, r) then known.(status := status) else r;
      FindIs(rs, known);
      FindIs(rs, r);
      assert q in ss;
    }
  }

  /** Noting a request leaves its record pending and every accepted record as it is. */
  lemma {:induction false} NotedKeeps(rs: seq<Record>, conversation: Text, requestId: Text, fingerprint: Text)
    requires Unique(rs) && Noted(rs, conversation, requestId, fingerprint).Some?
    ensures var ss := Noted(rs, conversation, requestId, fingerprint).value;
            && Unique(ss) && Kept(rs, ss)
            && Find(ss, conversation, requestId) == Some(Record(conversation, requestId, fingerprint, Pending))
            && (forall r :: r in rs && !Names(r, conversation, requestId) ==> r in ss)
            && forall r :: r in rs && Open(r, conversation, fingerprint) ==> r.requestId == requestId
  {
    hide Unique, Find, Kept, SetStatus, Count;
    if Find(rs, conversation, requestId).Some? {
      SetKeeps(rs, conversation, requestId, Pending);
      NoOtherOpen(rs, Find(rs, conversation, requestId).value);
    } else {
      AddKeeps(rs, Record(conversation, requestId, fingerprint, Pending));
    }
  }

  lemma {:induction false} NoOtherOpen(rs: seq<Record>, r: Record)
    requires Unique(rs) && r in rs && !r.status.Accepted?
    ensures forall q :: q in rs && Open(q, r.conversation, r.fingerprint) ==> q.requestId == r.requestId
  {
  }

  lemma {:induction false} AddOpen(rs: seq<Record>, added: Record)
    requires OneOpen(rs) && !Blocked(rs, added.conversation, added.fingerprint)
    ensures OneOpen(rs + [added])
  {
    assert forall r :: r in rs + [added] <==> r in rs || r == added;
    assert forall r :: r in rs ==> !Open(r, added.conversation, added.fingerprint);
  }

  lemma {:induction false} AddKeys(rs: seq<Record>, added: Record)
    requires KeysDiffer(rs) && Find(rs, added.conversation, added.requestId).None?
    ensures KeysDiffer(rs + [added])
  {
    assert forall i :: 0 <= i < |rs| ==> rs[i] in rs;
  }

  lemma {:induction false} AddKept(rs: seq<Record>, added: Record)
    ensures Kept(rs, rs + [added])
  {
    forall r | r in rs ensures exists q :: q in rs + [added] && q.(status := r.status) == r
                                           && (r.status.Accepted? ==> q == r) {
      assert r in rs + [added] && r.(status := r.status) == r;
    }
  }

  lemma {:induction false} AddKeeps(rs: seq<Record>, added: Record)
    requires Unique(rs) && Find(rs, added.conversation, added.requestId).None?
    requires !Blocked(rs, added.conversation, added.fingerprint)
    ensures Unique(rs + [added]) && Kept(rs, rs + [added])
            && Find(rs + [added], added.conversation, added.requestId) == Some(added)
    ensures forall r :: r in rs ==> r in rs + [added] && !Open(r, added.conversation, added.fingerprint)
  {
    AddOpen(rs, added);
    AddKeys(rs, added);
    AddKept(rs, added);
    var ss := rs + [added];
    assert Unique(ss) && ss[|rs|] == added;
    hide Unique, Kept, Find;
    FindIs(ss, added);
    assert forall r :: r in rs ==> r in ss;
  }

  lemma {:induction false} RecoveredFrom(rs: seq<Record>, a: Record) returns (x: Record)
    requires a in Recovered(rs)
    ensures x in rs && a == Revived(x)
  {
    var ss := Recovered(rs);
    var i :| 0 <= i < |ss| && ss[i] == a;
    x := rs[i];
  }

  lemma {:induction false} RecoveredOpen(rs: seq<Record>)
    requires OneOpen(rs)
    ensures OneOpen(Recovered(rs))
  {
    hide Recovered;
    var ss := Recovered(rs);
    forall a, b | a in ss && b in ss && Open(b, a.conversation, a.fingerprint) && !a.status.Accepted? ensures a == b {
      var x := RecoveredFrom(rs, a);
      var y := RecoveredFrom(rs, b);
      assert Open(y, x.conversation, x.fingerprint);
    }
  }

  lemma {:induction false} RecoveredKeeps(rs: seq<Record>)
    requires Unique(rs)
    ensures Unique(Recovered(rs)) && Kept(rs, Recovered(rs))
  {
    RecoveredOpen(rs);
    hide OneOpen;
    var ss := Recovered(rs);
    assert KeysDiffer(ss);
    forall r | r in rs ensures exists q :: q in ss && q.(status := r.status) == r && (r.status.Accepted? ==> q == r) {
      var i :| 0 <= i < |rs| && rs[i] == r;
      assert ss[i] in ss;
    }
  }

  // ---------- one step ----------

  lemma {:induction false} CallsKept(s: State, memory: seq<Record>, conversation: Text)
    requires Inv(s) && Unique(memory)
    requires forall r :: r in s.memory && r.conversation != conversation ==> r in memory
    ensures forall c :: c in s.calls && c != conversation ==>
              Find(memory, c, s.calls[c]).Some? && Find(memory, c, s.calls[c]).value.status.Pending?
  {
    forall c | c in s.calls && c != conversation
      ensures Find(memory, c, s.calls[c]).Some? && Find(memory, c, s.calls[c]).value.status.Pending?
    {
      FindIs(memory, Find(s.memory, c, s.calls[c]).value);
    }
  }

  lemma {:induction false} ProceedKeeps(t: State, conversation: Text, requestId: Text, sequel: Sequel, second: Saving)
    requires Inv(t) && t.running && !t.storageFailed && conversation !in t.calls
    requires Find(t.memory, conversation, requestId).Some?
             && Find(t.memory, conversation, requestId).value.status.Pending?
    ensures var u := Proceed(t, conversation, requestId, sequel, second); Inv(u) && Kept(t.disk, u.disk)
  {
    EmptyUnique();
    hide Unique, Find, Kept, SetStatus;
    KeptSelf(t.disk);
    if sequel.Refused? {
      SetKeeps(t.memory, conversation, requestId, Unconfirmed);
      CallsKept(t, SetStatus(t.memory, conversation, requestId, Unconfirmed), conversation);
    }
  }

  lemma {:induction false} ContinueKeeps(s: State, e: Step)
    requires Inv(s) && e.Continue?
    ensures Inv(Next(s, e)) && Kept(s.disk, Next(s, e).disk)
  {
    hide Unique, Find, Kept, Noted, SetStatus, Count, Proceed;
    KeptSelf(s.disk);
    var noted := Noted(s.memory, e.conversation, e.requestId, e.fingerprint);
    if s.running && !s.storageFailed && noted.Some? && e.conversation !in s.calls {
      NotedKeeps(s.memory, e.conversation, e.requestId, e.fingerprint);
      CallsKept(s, noted.value, e.conversation);
      var t := Save(s.(memory := noted.value), e.saving);
      assert Inv(t) && Kept(s.disk, t.disk);
      if !t.storageFailed {
        ProceedKeeps(t, e.conversation, e.requestId, e.sequel, e.second);
        KeptTransitive(s.disk, t.disk, Proceed(t, e.conversation, e.requestId, e.sequel, e.second).disk);
      }
    }
  }

  lemma {:induction false} AnswerKeeps(s: State, e: Step)
    requires Inv(s) && e.Answer?
    ensures Inv(Next(s, e)) && Kept(s.disk, Next(s, e).disk)
  {
    hide Unique, Find, Kept, SetStatus;
    KeptSelf(s.disk);
    if s.running && e.conversation in s.calls {
      var requestId := s.calls[e.conversation];
      SetKeeps(s.memory, e.conversation, requestId, if e.accepted then Accepted else Unconfirmed);
      SetKeeps(s.memory, e.conversation, requestId, Unconfirmed);
      CallsKept(s, SetStatus(s.memory, e.conversation, requestId, if e.accepted then Accepted else Unconfirmed),
              e.conversation);
      CallsKept(s, SetStatus(s.memory, e.conversation, requestId, Unconfirmed), e.conversation);
    }
  }

  lemma {:induction false} DownInv(s: State)
    requires Unique(s.disk)
    ensures Inv(Down(s))
  {
    EmptyUnique();
    hide Unique;
  }

  lemma {:induction false} SaveKeeps(s: State, saving: Saving)
    requires Inv(s) && s.running
    ensures Inv(Save(s, saving)) && Kept(s.disk, Save(s, saving).disk)
  {
    hide Unique, Find, Kept;
    KeptSelf(s.disk);
  }

  lemma {:induction false} RecoverKeeps(s: State, saving: Saving)
    requires Inv(s) && !s.running
    ensures Inv(Next(s, Restart(saving))) && Kept(s.disk, Next(s, Restart(saving)).disk)
  {
    assert Unique(s.disk);
    RecoveredKeeps(s.disk);
    KeptSelf(s.disk);
    DownInv(s.(disk := Recovered(s.disk)));
    DownInv(s);
    hide Unique, Kept, Recovered, Find;
  }

  lemma {:induction false} RestartKeeps(s: State, e: Step)
    requires Inv(s) && (e.Restart? || e.Crash? || e.OtherSave?)
    ensures Inv(Next(s, e)) && Kept(s.disk, Next(s, e).disk)
  {
    assert Unique(s.disk);
    KeptSelf(s.disk);
    if e.Restart? && !s.running { RecoverKeeps(s, e.saving); }
    if e.OtherSave? && s.running { SaveKeeps(s, e.saving); }
    DownInv(s);
    hide Inv, Kept, Save, Recovered;
  }

  lemma {:induction false} NextKeeps(s: State, e: Step)
    requires Inv(s)
    ensures Inv(Next(s, e)) && Kept(s.disk, Next(s, e).disk)
  {
    hide Inv, Next, Kept;
    match e
    case Continue(_, _, _, _, _, _, _) => ContinueKeeps(s, e);
    case Answer(_, _, _) => AnswerKeeps(s, e);
    case _ => RestartKeeps(s, e);
  }

  lemma EmptyUnique()
    ensures Unique([])
  {
  }

  /** The agent is asked in this step, for this request. */
  predicate Submits(s: State, e: Step, conversation: Text, requestId: Text, fingerprint: Text) {
    && e.Continue? && e.conversation == conversation && e.requestId == requestId && e.fingerprint == fingerprint
    && conversation !in s.calls && conversation in Next(s, e).calls
  }

  /**
   The file already holds the pending record, no accepted record is asked again, and no other request
   of the plan is open.
   */
  lemma {:induction false} SubmissionIsBound(s: State, e: Step, conversation: Text, requestId: Text, fingerprint: Text)
    requires Inv(s) && Submits(s, e, conversation, requestId, fingerprint)
    ensures Record(conversation, requestId, fingerprint, Pending) in Next(s, e).disk
    ensures forall r :: r in s.disk && Names(r, conversation, requestId) ==> !r.status.Accepted?
    ensures forall r :: r in s.disk && Open(r, conversation, fingerprint) ==> r.requestId == requestId
  {
    hide Kept, SetStatus, Count, Unique, Blocked;
    NotedKeeps(s.memory, conversation, requestId, fingerprint);
    var known := Find(s.memory, conversation, requestId);
    forall r | r in s.disk && Names(r, conversation, requestId) ensures !r.status.Accepted? {
      FindIs(s.memory, r);
    }
  }

  lemma {:induction false} SetFinds(rs: seq<Record>, conversation: Text, requestId: Text, status: Status)
    requires Find(rs, conversation, requestId).Some?
    ensures Find(SetStatus(rs, conversation, requestId, status), conversation, requestId)
            == Some(Find(rs, conversation, requestId).value.(status := status))
  {
    if !Names(rs[0], conversation, requestId) {
      assert SetStatus(rs, conversation, requestId, status)[1..] == SetStatus(rs[1..], conversation, requestId, status);
      SetFinds(rs[1..], conversation, requestId, status);
    }
  }

  predicate StatusIs(rs: seq<Record>, conversation: Text, requestId: Text, status: Status) {
    Find(rs, conversation, requestId).Some? && Find(rs, conversation, requestId).value.status == status
  }

  /**
   An answer that accepts: memory has the request accepted exactly when its save succeeds, and
   unconfirmed otherwise; the file has it accepted exactly when the content of that save reached it.
   */
  lemma {:induction false} AnswerAcceptsIff(s: State, conversation: Text, saving: Saving)
    requires Inv(s) && conversation in s.calls
    ensures var t, id := Next(s, Answer(conversation, true, saving)), s.calls[conversation];
            && (StatusIs(t.memory, conversation, id, Accepted) <==> !s.storageFailed && saving.Saved?)
            && (!StatusIs(t.memory, conversation, id, Accepted) ==> StatusIs(t.memory, conversation, id, Unconfirmed))
            && (if s.storageFailed then t.disk == s.disk
                else StatusIs(t.disk, conversation, id, Accepted) <==> !saving.FailedLost?)
  {
    hide SetStatus, Unique, Find;
    SetFinds(s.memory, conversation, s.calls[conversation], Accepted);
    SetFinds(s.memory, conversation, s.calls[conversation], Unconfirmed);
  }

  // ---------- whole histories ----------

  /** The state after the first n steps, crashes and restarts included. */
  function After(steps: seq<Step>, n: nat): State
    requires n <= |steps|
  {
    if n == 0 then Initial else Next(After(steps, n - 1), steps[n - 1])
  }

  lemma {:induction false} ReachableInv(steps: seq<Step>, n: nat)
    requires n <= |steps|
    ensures Inv(After(steps, n))
  {
    if n == 0 {
      EmptyUnique();
    } else {
      hide Inv, Next;
      ReachableInv(steps, n - 1);
      NextKeeps(After(steps, n - 1), steps[n - 1]);
    }
  }

  /** On disk no record ever disappears and acceptance is final. */
  lemma {:induction false} DiskKept(steps: seq<Step>, i: nat, j: nat)
    requires i <= j <= |steps|
    ensures Kept(After(steps, i).disk, After(steps, j).disk)
    decreases j
  {
    hide Inv, Next, Kept;
    if i == j {
      KeptSelf(After(steps, i).disk);
    } else {
      DiskKept(steps, i, j - 1);
      ReachableInv(steps, j - 1);
      NextKeeps(After(steps, j - 1), steps[j - 1]);
      KeptTransitive(After(steps, i).disk, After(steps, j - 1).disk, After(steps, j).disk);
    }
  }

  ghost predicate SubmitsAt(steps: seq<Step>, i: nat, conversation: Text, requestId: Text, fingerprint: Text) {
    i < |steps| && Submits(After(steps, i), steps[i], conversation, requestId, fingerprint)
  }

  lemma {:induction false} SubmittedOnDisk(steps: seq<Step>, i: nat, conversation: Text, requestId: Text,
            fingerprint: Text)
    requires SubmitsAt(steps, i, conversation, requestId, fingerprint)
    ensures Record(conversation, requestId, fingerprint, Pending) in After(steps, i + 1).disk
  {
    ReachableInv(steps, i);
    hide Inv, Next, Submits;
    SubmissionIsBound(After(steps, i), steps[i], conversation, requestId, fingerprint);
  }

  /** A durable pending record precedes every submission, and the record outlives every crash. */
  lemma {:induction false} WrittenAhead(steps: seq<Step>, i: nat, j: nat, conversation: Text, requestId: Text,
            fingerprint: Text)
    requires SubmitsAt(steps, i, conversation, requestId, fingerprint) && i < j <= |steps|
    ensures Record(conversation, requestId, fingerprint, Pending) in After(steps, i + 1).disk
    ensures exists status :: Record(conversation, requestId, fingerprint, status) in After(steps, j).disk
  {
    hide After, Inv, Next, Submits;
    SubmittedOnDisk(steps, i, conversation, requestId, fingerprint);
    DiskKept(steps, i + 1, j);
    var r := Record(conversation, requestId, fingerprint, Pending);
    var q :| q in After(steps, j).disk && q.(status := r.status) == r;
    assert q == Record(conversation, requestId, fingerprint, q.status);
  }

  /** A request that is durably accepted is never submitted again. */
  lemma {:induction false} AcceptedOnce(steps: seq<Step>, i: nat, j: nat, r: Record, fingerprint: Text)
    requires i <= j && SubmitsAt(steps, j, r.conversation, r.requestId, fingerprint)
    requires r.status.Accepted?
    ensures r !in After(steps, i).disk
  {
    ReachableInv(steps, j);
    SubmissionIsBound(After(steps, j), steps[j], r.conversation, r.requestId, fingerprint);
    hide Inv, Next;
    DiskKept(steps, i, j);
  }

  /** A second request for a plan is submitted only after the first is durably accepted. */
  lemma {:induction false} OneOpenRequestPerPlan(steps: seq<Step>, i: nat, j: nat, conversation: Text, first: Text,
            second: Text, fingerprint: Text)
    requires i < j && first != second
    requires SubmitsAt(steps, i, conversation, first, fingerprint)
             && SubmitsAt(steps, j, conversation, second, fingerprint)
    ensures Record(conversation, first, fingerprint, Accepted) in After(steps, j).disk
  {
    WrittenAhead(steps, i, j, conversation, first, fingerprint);
    ReachableInv(steps, j);
    SubmissionIsBound(After(steps, j), steps[j], conversation, second, fingerprint);
    hide Inv, Next;
    var status :| Record(conversation, first, fingerprint, status) in After(steps, j).disk;
    assert !Open(Record(conversation, first, fingerprint, status), conversation, fingerprint);
  }

  function FallingBack(conversation: Text, id: Text, plan: Text): seq<Step> {
    [Restart(Saved), Continue(conversation, id, plan, true, Saved, Asked, Saved),
     Answer(conversation, true, FailedKept)]
  }

  /** A run after which memory has the answered request unconfirmed while the file has it accepted. */
  lemma {:induction false} MemoryMayFallBack(conversation: Text, id: Text, plan: Text)
    ensures var steps := FallingBack(conversation, id, plan);
            && After(steps, 2).calls == map[conversation := id]
            && StatusIs(After(steps, 3).memory, conversation, id, Unconfirmed)
            && StatusIs(After(steps, 3).disk, conversation, id, Accepted)
  {
    var steps, record := FallingBack(conversation, id, plan), Record(conversation, id, plan, Pending);
    assert Recovered([]) == [];
    assert After(steps, 1) == State([], [], true, false, map[]);
    assert [] + [record] == [record];
    assert After(steps, 2) == State([record], [record], true, false, map[conversation := id]);
    ReachableInv(steps, 2);
    hide Inv, SetStatus, StatusIs;
    AnswerAcceptsIff(After(steps, 2), conversation, FailedKept);
    assert After(steps, 3) == Next(After(steps, 2), steps[2]);
  }
}
