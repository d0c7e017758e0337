/**
 Which continuations go to the agent and what every step leaves of the records, record by record:
 a request may be tried again under its own id until it is accepted, a new one waits its turn.
 */
module ContinuationRequests {
  import opened Texts
  import opened ContinuationProtocol

  // ---------- which requests are noted ----------

  /** The places of a conversation's records. */
  function Places(rs: seq<Record>, conversation: Text): set<nat> {
    set i: nat | i < |rs| && rs[i].conversation == conversation
  }

  /** A request that was made before: for the same plan, and not accepted yet. */
  predicate Retries(rs: seq<Record>, conversation: Text, requestId: Text, fingerprint: Text) {
    exists status :: status != Accepted && Record(conversation, requestId, fingerprint, status) in rs
  }

  /** A new request: its id is free, no request of the plan is open, and there is room for another record. */
  predicate Fresh(rs: seq<Record>, conversation: Text, requestId: Text, fingerprint: Text) {
    && (forall r :: r in rs && r.conversation == conversation ==> r.requestId != requestId)
    && (forall r :: r in rs && r.conversation == conversation && r.fingerprint == fingerprint ==> r.status == Accepted)
    && |rs| < 4096 && |Places(rs, conversation)| < 256
  }

  predicate AskGiven(s: State, e: Step) {
    && e.Continue? && s.running && !s.storageFailed && e.allowed && e.conversation !in s.calls
    && (Retries(s.memory, e.conversation, e.requestId, e.fingerprint)
        || Fresh(s.memory, e.conversation, e.requestId, e.fingerprint))
  }

  lemma {:induction false} CountLast(rs: seq<Record>, r: Record, conversation: Text)
    ensures Count(rs + [r], conversation) == Count(rs, conversation) + if r.conversation == conversation then 1 else 0
  {
    if rs == [] {
      assert rs + [r] == [r] && [r][1..] == [];
    } else {
      assert (rs + [r])[1..] == rs[1..] + [r];
      CountLast(rs[1..], r, conversation);
    }
  }

  lemma PlacesLast(rs: seq<Record>, r: Record, conversation: Text)
    ensures Places(rs + [r], conversation)
            == if r.conversation == conversation then Places(rs, conversation) + {|rs|} else Places(rs, conversation)
  {
  }

  lemma {:induction false} CountIsPlaces(rs: seq<Record>, conversation: Text)
    ensures Count(rs, conversation) == |Places(rs, conversation)|
  {
    if rs == [] {
      assert Places(rs, conversation) == {};
    } else {
      var n := |rs| - 1;
      CountIsPlaces(rs[..n], conversation);
      CountLast(rs[..n], rs[n], conversation);
      PlacesLast(rs[..n], rs[n], conversation);
      assert n !in Places(rs[..n], conversation);
      assert rs[..n] + [rs[n]] == rs;
      hide Count, Places;
    }
  }

  lemma {:induction false} RetriesIff(rs: seq<Record>, conversation: Text, requestId: Text, fingerprint: Text)
    requires Unique(rs)
    ensures Retries(rs, conversation, requestId, fingerprint) <==>
              var known := Find(rs, conversation, requestId);
              known.Some? && known.value.fingerprint == fingerprint && !known.value.status.Accepted?
  {
    var known := Find(rs, conversation, requestId);
    if status :| status != Accepted && Record(conversation, requestId, fingerprint, status) in rs {
      FindIs(rs, Record(conversation, requestId, fingerprint, status));
    }
    hide Unique;
    if known.Some? && known.value.fingerprint == fingerprint && !known.value.status.Accepted? {
      assert known.value == Record(conversation, requestId, fingerprint, known.value.status);
    }
  }

  lemma FreshIff(rs: seq<Record>, conversation: Text, requestId: Text, fingerprint: Text)
    ensures Fresh(rs, conversation, requestId, fingerprint) <==>
              && Find(rs, conversation, requestId).None? && !Blocked(rs, conversation, fingerprint)
              && |rs| < MAX_RECORDS && Count(rs, conversation) < MAX_PER_CONVERSATION
  {
    CountIsPlaces(rs, conversation);
    hide Count, Places;
    if Blocked(rs, conversation, fingerprint) {
      var i :| 0 <= i < |rs| && Open(rs[i], conversation, fingerprint);
      assert rs[i] in rs;
    }
  }

  /** A request is noted exactly when it is tried again under its own id or is fresh. */
  lemma {:induction false} NotedIff(rs: seq<Record>, conversation: Text, requestId: Text, fingerprint: Text)
    requires Unique(rs)
    ensures Noted(rs, conversation, requestId, fingerprint).Some? <==>
              Retries(rs, conversation, requestId, fingerprint) || Fresh(rs, conversation, requestId, fingerprint)
  {
    RetriesIff(rs, conversation, requestId, fingerprint);
    FreshIff(rs, conversation, requestId, fingerprint);
    hide Retries, Fresh, Unique, Blocked, Count, Find, SetStatus;
  }

  // ---------- what steps leave ----------

  /** One record changes its status; nothing else does. */
  predicate Marked(rs: seq<Record>, ss: seq<Record>, conversation: Text, requestId: Text, status: Status) {
    && |ss| == |rs|
    && forall i :: 0 <= i < |rs| ==>
         ss[i] == if rs[i].conversation == conversation && rs[i].requestId == requestId
                  then Record(conversation, requestId, rs[i].fingerprint, status) else rs[i]
  }

  lemma SetMarks(rs: seq<Record>, conversation: Text, requestId: Text, status: Status)
    ensures Marked(rs, SetStatus(rs, conversation, requestId, status), conversation, requestId, status)
  {
  }

  /** The request is pending, in its own place or in a new last one. */
  predicate NotedAs(rs: seq<Record>, ss: seq<Record>, conversation: Text, requestId: Text, fingerprint: Text) {
    if Retries(rs, conversation, requestId, fingerprint) then Marked(rs, ss, conversation, requestId, Pending)
    else ss == rs + [Record(conversation, requestId, fingerprint, Pending)]
  }

  /** The file is memory afterwards unless the new content was lost; a save that fails blocks all later ones. */
  predicate SavedAs(s: State, t: State, saving: Saving) {
    if s.storageFailed then t == s
    else t == State(if saving == FailedLost then s.disk else s.memory, s.memory, s.running, saving != Saved, s.calls)
  }

  lemma SaveIs(s: State, saving: Saving)
    ensures SavedAs(s, Save(s, saving), saving)
  {
  }

  predicate Ends(s: State, t: State) { t == State(s.disk, [], false, false, map[]) }

  /** After the first save: the agent is asked, the process ended, or the second review refused and that is saved. */
  ghost predicate GoesOn(u: State, t: State, conversation: Text, requestId: Text, sequel: Sequel, second: Saving) {
    match sequel
    case Asked => t == u.(calls := u.calls[conversation := requestId])
    case Ended => Ends(u, t)
    case Refused =>
      exists m :: Marked(u.memory, m, conversation, requestId, Unconfirmed) && SavedAs(u.(memory := m), t, second)
  }

  ghost predicate Continues(s: State, t: State, e: Step)
    requires e.Continue?
  {
    exists noted, u ::
      && NotedAs(s.memory, noted, e.conversation, e.requestId, e.fingerprint)
      && SavedAs(s.(memory := noted), u, e.saving)
      && if e.saving != Saved then t == u else GoesOn(u, t, e.conversation, e.requestId, e.sequel, e.second)
  }

  /** The answer ends the wait; a save that fails leaves the request unconfirmed in memory, whatever it answered. */
  ghost predicate Answers(s: State, t: State, conversation: Text, accepted: bool, saving: Saving)
    requires conversation in s.calls
  {
    var id := s.calls[conversation];
    exists m, u, doubt ::
      && Marked(s.memory, m, conversation, id, if accepted then Accepted else Unconfirmed)
      && Marked(s.memory, doubt, conversation, id, Unconfirmed)
      && SavedAs(s.(memory := m, calls := s.calls - {conversation}), u, saving)
      && t == if u.storageFailed then u.(memory := doubt) else u
  }

  /** A process that starts finds what was pending unconfirmed, saves that, and ends again if it cannot. */
  ghost predicate Starts(s: State, t: State, saving: Saving) {
    exists found: seq<Record> ::
      && |found| == |s.disk|
      && (forall i :: 0 <= i < |found| ==>
            found[i] == s.disk[i].(status := if s.disk[i].status == Pending then Unconfirmed else s.disk[i].status))
      && t == match saving
              case Saved => State(found, found, true, false, map[])
              case FailedKept => State(found, [], false, false, map[])
              case FailedLost => State(s.disk, [], false, false, map[])
  }

  ghost predicate Leaves(s: State, t: State, e: Step) {
    match e
    case Continue(_, _, _, _, _, _, _) => if AskGiven(s, e) then Continues(s, t, e) else t == s
    case Answer(conversation, accepted, saving) =>
      if s.running && conversation in s.calls then Answers(s, t, conversation, accepted, saving) else t == s
    case OtherSave(saving) => if s.running then SavedAs(s, t, saving) else t == s
    case Crash => Ends(s, t)
    case Restart(saving) => if s.running then t == s else Starts(s, t, saving)
  }

  lemma {:induction false} ContinueLeaves(s: State, e: Step)
    requires Inv(s) && e.Continue?
    ensures Leaves(s, Next(s, e), e)
  {
    NotedIff(s.memory, e.conversation, e.requestId, e.fingerprint);
    RetriesIff(s.memory, e.conversation, e.requestId, e.fingerprint);
    hide Retries, Fresh, Find, Blocked, Count, Unique;
    if AskGiven(s, e) {
      var noted := Noted(s.memory, e.conversation, e.requestId, e.fingerprint).value;
      SetMarks(s.memory, e.conversation, e.requestId, Pending);
      assert NotedAs(s.memory, noted, e.conversation, e.requestId, e.fingerprint);
      hide Noted, NotedAs;
      var u := Save(s.(memory := noted), e.saving);
      SaveIs(s.(memory := noted), e.saving);
      var m := SetStatus(noted, e.conversation, e.requestId, Unconfirmed);
      SetMarks(noted, e.conversation, e.requestId, Unconfirmed);
      SaveIs(u.(memory := m), e.second);
      hide SetStatus, Marked;
      assert e.saving == Saved ==> GoesOn(u, Next(s, e), e.conversation, e.requestId, e.sequel, e.second);
    }
  }

  lemma {:induction false} AnswerLeaves(s: State, conversation: Text, accepted: bool, saving: Saving)
    requires s.running && conversation in s.calls
    ensures Answers(s, Next(s, Answer(conversation, accepted, saving)), conversation, accepted, saving)
  {
    var id := s.calls[conversation];
    var m := SetStatus(s.memory, conversation, id, if accepted then Accepted else Unconfirmed);
    var doubt := SetStatus(s.memory, conversation, id, Unconfirmed);
    SetMarks(s.memory, conversation, id, if accepted then Accepted else Unconfirmed);
    SetMarks(s.memory, conversation, id, Unconfirmed);
    hide SetStatus, Marked;
    var idle := s.(memory := m, calls := s.calls - {conversation});
    SaveIs(idle, saving);
    assert SavedAs(idle, Save(idle, saving), saving);
  }

  lemma {:induction false} RestartLeaves(s: State, saving: Saving)
    requires !s.running
    ensures Starts(s, Next(s, Restart(saving)), saving)
  {
    var found := Recovered(s.disk);
    assert |found| == |s.disk|;
  }

  /** Every step leaves exactly what its parts say. */
  lemma {:induction false} StepLeaves(s: State, e: Step)
    requires Inv(s)
    ensures Leaves(s, Next(s, e), e)
  {
    match e
    case Continue(_, _, _, _, _, _, _) => ContinueLeaves(s, e);
    case Answer(conversation, accepted, saving) =>
      if s.running && conversation in s.calls { AnswerLeaves(s, conversation, accepted, saving); }
    case OtherSave(saving) => SaveIs(s, saving);
    case Crash =>
    case Restart(saving) => if !s.running { RestartLeaves(s, saving); }
  }

  // ---------- over whole runs ----------

  lemma {:induction false} SubmitsWhen(s: State, e: Step)
    requires Inv(s) && e.Continue?
    ensures Submits(s, e, e.conversation, e.requestId, e.fingerprint) <==>
              AskGiven(s, e) && e.saving == Saved && e.sequel == Asked
  {
    NotedIff(s.memory, e.conversation, e.requestId, e.fingerprint);
    hide Retries, Fresh, Noted, SetStatus, Unique;
  }

  /** The agent is asked exactly when the request may be noted, its record was saved and the second review agreed. */
  lemma {:induction false} SubmitsIff(steps: seq<Step>, i: nat, conversation: Text, requestId: Text, fingerprint: Text)
    requires i < |steps| && steps[i].Continue? && steps[i].conversation == conversation
             && steps[i].requestId == requestId && steps[i].fingerprint == fingerprint
    ensures SubmitsAt(steps, i, conversation, requestId, fingerprint) <==>
              AskGiven(After(steps, i), steps[i]) && steps[i].saving == Saved && steps[i].sequel == Asked
  {
    ReachableInv(steps, i);
    hide After, AskGiven, Submits, Inv;
    SubmitsWhen(After(steps, i), steps[i]);
  }

  /**
   In every run a request that went to the agent and was not durably accepted since may be tried again
   under its own id, whenever the conversation waits for nothing, at any number of records.
   */
  lemma {:induction false} UnconfirmedMayRetry(steps: seq<Step>, i: nat, j: nat, e: Step)
    requires i < j < |steps| && steps[j] == e && e.Continue? && e.allowed && e.saving == Saved && e.sequel == Asked
    requires SubmitsAt(steps, i, e.conversation, e.requestId, e.fingerprint)
    requires After(steps, j).running && !After(steps, j).storageFailed && e.conversation !in After(steps, j).calls
    requires Record(e.conversation, e.requestId, e.fingerprint, Accepted) !in After(steps, j).disk
    ensures SubmitsAt(steps, j, e.conversation, e.requestId, e.fingerprint)
  {
    WrittenAhead(steps, i, j, e.conversation, e.requestId, e.fingerprint);
    SubmitsIff(steps, j, e.conversation, e.requestId, e.fingerprint);
    ReachableInv(steps, j);
    hide After, Submits, Unique;
    var status :| Record(e.conversation, e.requestId, e.fingerprint, status) in After(steps, j).disk;
    assert Retries(After(steps, j).memory, e.conversation, e.requestId, e.fingerprint);
  }
}
