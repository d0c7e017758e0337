/**
 The operator service's continuation records in their own form: an object that changes its
 records in place and saves them between steps. Each public method ends in the state that
 `ContinuationProtocol` gives.
 */
module ContinuationServices {
  import opened Texts
  import opened ContinuationProtocol
  import ContinuationRequests

  class OperatorService {
    var disk: seq<Record>
    var continuations: seq<Record>
    var running: bool
    var storageFailed: bool
    var calls: map<Text, Text>

    ghost function Model(): State
      reads this
    {
      State(disk, continuations, running, storageFailed, calls)
    }

    /** What every reachable state satisfies. */
    ghost predicate Valid()
      reads this
    {
      Inv(Model())
    }

    constructor ()
      ensures Model() == Initial && Valid()
    {
      disk, continuations, running, storageFailed, calls := [], [], false, false, map[];
    }

    method SaveRecords(saving: Saving) returns (saved: bool)
      modifies `disk, `storageFailed
      ensures Model() == Save(old(Model()), saving)
      ensures saved <==> !storageFailed
    {
      if storageFailed { return false; }
      if !saving.FailedLost? { disk := continuations; }
      storageFailed := !saving.Saved?;
      saved := saving.Saved?;
    }

    method MarkRecord(conversation: Text, requestId: Text, status: Status)
      modifies `continuations
      ensures continuations == SetStatus(old(continuations), conversation, requestId, status)
    {
      var rs, i := continuations, 0;
      while i < |continuations|
        invariant 0 <= i <= |rs| == |continuations|
        invariant forall j :: 0 <= j < |rs| ==>
          continuations[j] == if j < i then SetStatus(rs, conversation, requestId, status)[j] else rs[j]
      {
        if Names(continuations[i], conversation, requestId) {
          continuations := continuations[i := continuations[i].(status := status)];
        }
        i := i + 1;
      }
    }

    method HasOpenPlan(conversation: Text, fingerprint: Text) returns (found: bool)
      ensures found <==> Blocked(continuations, conversation, fingerprint)
    {
      for i := 0 to |continuations|
        invariant forall j :: 0 <= j < i ==> !Open(continuations[j], conversation, fingerprint)
      {
        if Open(continuations[i], conversation, fingerprint) { return true; }
      }
      found := false;
    }

    method CountOf(conversation: Text) returns (count: nat)
      ensures count == Count(continuations, conversation)
    {
      count := 0;
      var i := 0;
      assert continuations[0..] == continuations;
      while i < |continuations|
        invariant 0 <= i <= |continuations|
        invariant count + Count(continuations[i..], conversation) == Count(continuations, conversation)
      {
        assert continuations[i..][1..] == continuations[i + 1..];
        if continuations[i].conversation == conversation { count := count + 1; }
        i := i + 1;
      }
    }

    /** Noting the request as pending, or refusing it without a change. */
    method NoteRequest(conversation: Text, requestId: Text, fingerprint: Text) returns (noted: bool)
      modifies `continuations
      ensures noted <==> Noted(old(continuations), conversation, requestId, fingerprint).Some?
      ensures continuations == if noted then Noted(old(continuations), conversation, requestId, fingerprint).value
                               else old(continuations)
    {
      hide SetStatus, Count, Blocked;
      noted := false;
      var record := Find(continuations, conversation, requestId);
      if record.Some? {
        if record.value.fingerprint != fingerprint || record.value.status.Accepted? { return; }
        MarkRecord(conversation, requestId, Pending);
      } else {
        var open := HasOpenPlan(conversation, fingerprint);
        var count := CountOf(conversation);
        if open || |continuations| >= MAX_RECORDS || count >= MAX_PER_CONVERSATION { return; }
        continuations := continuations + [Record(conversation, requestId, fingerprint, Pending)];
      }
      noted := true;
    }

    method Follow(conversation: Text, requestId: Text, sequel: Sequel, second: Saving)
      modifies this
      ensures Model() == Proceed(old(Model()), conversation, requestId, sequel, second)
    {
      hide SetStatus;
      match sequel {
        case Ended => End();
        case Asked => calls := calls[conversation := requestId];
        case Refused =>
          MarkRecord(conversation, requestId, Unconfirmed);
          var _ := SaveRecords(second);
      }
    }

    /** Continuing an approved experiment, up to asking the agent: when it asks, the pending record is in the file. */
    method ContinueExperiment(conversation: Text, requestId: Text, fingerprint: Text, allowed: bool,
                              saving: Saving, sequel: Sequel, second: Saving)
      requires Valid()
      modifies this
      ensures Model() == Next(old(Model()),
                  Continue(conversation, requestId, fingerprint, allowed, saving, sequel, second))
      ensures Valid()
      ensures Kept(old(disk), disk)
      ensures conversation in calls && conversation !in old(calls) ==>
                Record(conversation, requestId, fingerprint, Pending) in disk
      ensures conversation in calls && conversation !in old(calls) <==>
                && ContinuationRequests.AskGiven(old(Model()), Continue(conversation, requestId, fingerprint, allowed,
                                                                        saving, sequel, second))
                && saving == Saved && sequel == Asked
    {
      ghost var step := Continue(conversation, requestId, fingerprint, allowed, saving, sequel, second);
      NextKeeps(Model(), step);
      if Submits(Model(), step, conversation, requestId, fingerprint) {
        SubmissionIsBound(Model(), step, conversation, requestId, fingerprint);
      }
      ContinuationRequests.SubmitsWhen(Model(), step);
      hide Noted, Save, Proceed, Inv, Kept, ContinuationRequests.AskGiven;
      if !running || storageFailed || !allowed || conversation in calls { return; }
      var noted := NoteRequest(conversation, requestId, fingerprint);
      if !noted { return; }
      var saved := SaveRecords(saving);
      if saved { Follow(conversation, requestId, sequel, second); }
    }

    method TakeAnswer(conversation: Text, accepted: bool, saving: Saving)
      modifies this
      ensures Model() == Next(old(Model()), Answer(conversation, accepted, saving))
    {
      hide SetStatus;
      if !running || conversation !in calls { return; }
      var requestId, before := calls[conversation], continuations;
      calls := calls - {conversation};
      MarkRecord(conversation, requestId, if accepted then Accepted else Unconfirmed);
      var saved := SaveRecords(saving);
      if !saved {
        MarkRecord(conversation, requestId, Unconfirmed);
        SetTwice(before, conversation, requestId, if accepted then Accepted else Unconfirmed, Unconfirmed);
      }
    }

    /** The agent answers, or fails to: the request is accepted in memory exactly when that could be saved. */
    method AgentAnswers(conversation: Text, accepted: bool, saving: Saving)
      requires Valid()
      modifies this
      ensures Model() == Next(old(Model()), Answer(conversation, accepted, saving)) && Valid()
      ensures Kept(old(disk), disk)
      ensures accepted && conversation in old(calls) ==>
                (StatusIs(continuations, conversation, old(calls)[conversation], Accepted)
                 <==> !old(storageFailed) && saving.Saved?)
    {
      NextKeeps(Model(), Answer(conversation, accepted, saving));
      if accepted && conversation in calls { AnswerAcceptsIff(Model(), conversation, saving); }
      hide Next, Inv, Kept, StatusIs;
      TakeAnswer(conversation, accepted, saving);
    }

    method SaveElsewhere(saving: Saving)
      requires Valid()
      modifies this
      ensures Model() == Next(old(Model()), OtherSave(saving)) && Valid()
      ensures Kept(old(disk), disk)
    {
      NextKeeps(Model(), OtherSave(saving));
      hide Inv, Kept;
      if running { var _ := SaveRecords(saving); }
    }

    method End()
      modifies this
      ensures Model() == Down(old(Model()))
    {
      continuations, running, storageFailed, calls := [], false, false, map[];
    }

    /** Every pending record becomes unconfirmed. */
    method Revive()
      modifies `continuations
      ensures continuations == Recovered(old(continuations))
    {
      var rs, i := continuations, 0;
      while i < |continuations|
        invariant 0 <= i <= |rs| == |continuations|
        invariant forall j :: 0 <= j < |rs| ==> continuations[j] == if j < i then Revived(rs[j]) else rs[j]
      {
        if continuations[i].status.Pending? {
          continuations := continuations[i := continuations[i].(status := Unconfirmed)];
        }
        i := i + 1;
      }
    }

    /** The process starts: pending records become unconfirmed and are saved before anything else. */
    method Start(saving: Saving)
      requires Valid()
      modifies this
      ensures Model() == Next(old(Model()), Restart(saving)) && Valid()
      ensures Kept(old(disk), disk)
    {
      NextKeeps(Model(), Restart(saving));
      hide Inv, Kept, Recovered;
      if running { return; }
      continuations, running, storageFailed, calls := disk, true, false, map[];
      Revive();
      var saved := SaveRecords(saving);
      if !saved { End(); }
    }
  }

  lemma {:induction false} SetTwice(rs: seq<Record>, conversation: Text, requestId: Text, first: Status, second: Status)
    ensures SetStatus(SetStatus(rs, conversation, requestId, first), conversation, requestId, second)
         == SetStatus(rs, conversation, requestId, second)
  {
  }
}
