/**
 The execution controller in its own form: an object whose fields every response updates in
 place. Each method is one step boundary of `ExecutionProtocol` and ends in the state it gives.
 */
module ExecutionControllers {
  import opened Options
  import opened Texts
  import opened RunContract
  import opened ExecutionProtocol
  import ExecutionRequests

  lemma {:induction false} WithoutLast(rs: seq<Run>, r: Run, id: Text)
    ensures WithoutRun(rs + [r], id) == WithoutRun(rs, id) + (if r.runId == id then [] else [r])
  {
    if rs != [] {
      assert (rs + [r])[1..] == rs[1..] + [r];
      WithoutLast(rs[1..], r, id);
    }
  }

  lemma {:induction false} KeepLast(rs: seq<Run>, r: Run, index: nat)
    ensures Keep(rs + [r], index) == Keep(rs, index) + (if index + |rs| < MAX_HISTORY || NeedsResolution(r) then [r]
                                                        else [])
  {
    if rs != [] {
      assert (rs + [r])[1..] == rs[1..] + [r];
      KeepLast(rs[1..], r, index + 1);
    }
  }

  lemma AsksStop(s: State, e: Step)
    requires Inv(s) && s.stop.None? && e.StartStop?
    ensures forall r :: Next(s, e).stop == Some(r) <==>
              !s.disposed && ExecutionRequests.CopyOf(s, e.id, r) && ExecutionRequests.Open(r)
  {
    hide *;
    forall r ensures Next(s, e).stop == Some(r) <==>
                       !s.disposed && ExecutionRequests.CopyOf(s, e.id, r) && ExecutionRequests.Open(r)
    {
      ExecutionRequests.StopAskedIff(s, e, r);
    }
  }

  lemma AsksAction(s: State, e: Step)
    requires Inv(s) && s.action.None?
    ensures forall a :: Next(s, e).action == Some(a) <==> !s.disposed && s.stop.None? && ExecutionRequests.Asks(s, e, a)
  {
    hide *;
    forall a ensures Next(s, e).action == Some(a) <==>
                       !s.disposed && s.stop.None? && ExecutionRequests.Asks(s, e, a)
    {
      ExecutionRequests.ActionAskedIff(s, e, a);
    }
  }

  /** A run that stays selected is unchanged or replaced by a record that extends it. */
  predicate SelectedKeeps(before: Option<Run>, after: Option<Run>) {
    before.Some? && after.Some? && after.value.runId == before.value.runId ==> Extends(after.value, before.value)
  }

  lemma StepGuarantees(s: State, e: Step)
    requires Inv(s) && Decoded(e)
    ensures SelectedKeeps(s.run, Next(s, e).run)
    ensures forall id :: Unresolved(s, id) && !Unresolved(Next(s, e), id) ==> Releases(s, Next(s, e), id, Fresh(e))
  {
    hide Inv, Next, Releases, Unresolved, Decoded;
    var t := Next(s, e);
    if s.run.Some? && t.run.Some? && t.run.value.runId == s.run.value.runId { NextSelected(s, e); }
    forall id | Unresolved(s, id) && !Unresolved(t, id) ensures Releases(s, t, id, Fresh(e)) { NextReleases(s, e, id); }
  }

  class ExecutionController {
    var runs: seq<Run>
    var run: Option<Run>
    var disposed: bool
    var readPending: Reading
    var stopPending: Option<Run>
    var actionPending: Option<Action>

    ghost function Model(): State
      reads this
    {
      State(runs, run, disposed, readPending, stopPending, actionPending)
    }

    /** What every reachable state satisfies. */
    ghost predicate Valid()
      reads this
    {
      Inv(Model())
    }

    constructor ()
      ensures Model() == Initial && Valid()
    {
      runs, run, disposed, readPending, stopPending, actionPending := [], None, false, Idle, None, None;
    }

    method OtherRuns(id: Text) returns (rest: seq<Run>)
      ensures rest == WithoutRun(runs, id)
    {
      rest := [];
      assert WithoutRun([], id) == [];
      hide WithoutRun;
      for i := 0 to |runs|
        invariant rest == WithoutRun(runs[..i], id)
      {
        WithoutLast(runs[..i], runs[i], id);
        assert runs[..i + 1] == runs[..i] + [runs[i]];
        if runs[i].runId != id { rest := rest + [runs[i]]; }
      }
      assert runs[..|runs|] == runs;
    }

    method Capped(history: seq<Run>) returns (kept: seq<Run>)
      ensures kept == Keep(history, 0)
    {
      kept := [];
      assert Keep([], 0) == [];
      hide Keep, NeedsResolution;
      for i := 0 to |history|
        invariant kept == Keep(history[..i], 0)
      {
        KeepLast(history[..i], history[i], 0);
        assert history[..i + 1] == history[..i] + [history[i]];
        if i < MAX_HISTORY || NeedsResolution(history[i]) { kept := kept + [history[i]]; }
      }
      assert history[..|history|] == history;
    }

    method AcceptRun(value: Run) returns (accepted: bool)
      modifies `runs, `run
      ensures Model() == Accept(old(Model()), value)
      ensures accepted <==> Acceptable(old(Model()), value)
    {
      var known := if run.Some? && run.value.runId == value.runId then run else Find(runs, value.runId);
      if known.Some? && (value.revision < known.value.revision || !Matches(value, known.value)) { return false; }
      run := Some(value);
      var rest := OtherRuns(value.runId);
      runs := Capped([value] + rest);
      accepted := true;
    }

    // ---------- refresh ----------

    method StartRefresh()
      requires Valid()
      modifies `readPending
      ensures Model() == Next(old(Model()), Step.StartRefresh) && Valid()
    {
      NextInv(Model(), Step.StartRefresh);
      hide Inv;
      if disposed || !readPending.Idle? { return; }
      readPending := Listing;
    }

    method MergeItems(listing: seq<Run>) returns (merged: Option<seq<Run>>)
      ensures merged.Some? <==> forall i :: 0 <= i < |listing| ==> MergeItem(runs, listing[i]).Some?
      ensures merged.Some? ==> |merged.value| == |listing|
      ensures merged.Some? ==> forall i :: 0 <= i < |listing| ==> Some(merged.value[i]) == MergeItem(runs, listing[i])
    {
      var items := [];
      for i := 0 to |listing|
        invariant |items| == i
        invariant forall j :: 0 <= j < i ==> Some(items[j]) == MergeItem(runs, listing[j])
      {
        var item := MergeItem(runs, listing[i]);
        if item.None? { return None; }
        items := items + [item.value];
      }
      merged := Some(items);
    }

    method RetainUnresolved(known: seq<Run>, merged: seq<Run>) returns (all: seq<Run>)
      ensures all == Retain(known, merged)
    {
      all := merged;
      var i := 0;
      assert known[0..] == known;
      while i < |known|
        invariant 0 <= i <= |known|
        invariant Retain(known[i..], all) == Retain(known, merged)
      {
        if NeedsResolution(known[i]) && Find(all, known[i].runId).None? { all := all + [known[i]]; }
        assert known[i..][1..] == known[i + 1..];
        i := i + 1;
      }
    }

    method FirstOpen() returns (found: Option<Run>)
      ensures found == FirstUnresolved(runs)
    {
      var i := 0;
      assert runs[0..] == runs;
      while i < |runs|
        invariant 0 <= i <= |runs|
        invariant FirstUnresolved(runs[i..]) == FirstUnresolved(runs)
      {
        if NeedsResolution(runs[i]) { return Some(runs[i]); }
        assert runs[i..][1..] == runs[i + 1..];
        i := i + 1;
      }
      found := None;
    }

    method ListingArrives(listing: Option<seq<Run>>)
      requires Valid() && Decoded(Step.ListingArrives(listing))
      modifies `runs, `run, `readPending
      ensures Model() == Next(old(Model()), Step.ListingArrives(listing)) && Valid()
      ensures SelectedKeeps(old(run), run)
      ensures forall id :: Unresolved(old(Model()), id) && !Unresolved(Model(), id) ==>
                             Releases(old(Model()), Model(), id, Fresh(Step.ListingArrives(listing)))
    {
      NextInv(Model(), Step.ListingArrives(listing));
      StepGuarantees(Model(), Step.ListingArrives(listing));
      hide Inv, SelectedKeeps, Unresolved, Releases;
      if !readPending.Listing? { return; }
      readPending := Idle;
      if disposed || listing.None? { return; }
      var merged := MergeItems(listing.value);
      if merged.None? { return; }
      ghost var before := old(Model());
      assert merged.value == MergedItems(before, listing.value);
      var known := runs;
      runs := RetainUnresolved(known, merged.value);
      if run.Some? && Find(runs, run.value.runId).None? { runs := [run.value] + runs; }
      if run.None? { run := FirstOpen(); }
      if run.Some? { readPending := Exact(run.value); }
    }

    method ExactArrives(value: Option<Run>)
      requires Valid()
      modifies `runs, `run, `readPending
      ensures Model() == Next(old(Model()), Step.ExactArrives(value)) && Valid()
      ensures SelectedKeeps(old(run), run)
      ensures forall id :: Unresolved(old(Model()), id) && !Unresolved(Model(), id) ==>
                             Releases(old(Model()), Model(), id, Fresh(Step.ExactArrives(value)))
    {
      NextInv(Model(), Step.ExactArrives(value));
      StepGuarantees(Model(), Step.ExactArrives(value));
      hide Inv, SelectedKeeps, Unresolved, Releases;
      if !readPending.Exact? { return; }
      var expected := readPending.expected;
      readPending := Idle;
      if disposed || value.None? || run.None? || run.value.runId != expected.runId { return; }
      var _ := AcceptRun(value.value);
    }

    // ---------- Stop ----------

    method StartStop(id: Text)
      requires Valid()
      modifies `stopPending
      ensures Model() == Next(old(Model()), Step.StartStop(id)) && Valid()
      ensures old(stopPending).None? ==>
                forall r :: stopPending == Some(r) <==>
                  !disposed && ExecutionRequests.CopyOf(old(Model()), id, r) && ExecutionRequests.Open(r)
    {
      NextInv(Model(), Step.StartStop(id));
      if stopPending.None? { AsksStop(Model(), Step.StartStop(id)); }
      hide Inv, ExecutionRequests.CopyOf, ExecutionRequests.Open;
      var expected := if run.Some? && run.value.runId == id then run else Find(runs, id);
      if disposed || expected.None? || !NeedsResolution(expected.value) || stopPending.Some? { return; }
      stopPending := expected;
    }

    method ReplaceRun(value: Run)
      modifies `runs
      ensures runs == Replace(old(runs), value)
    {
      var known, result := runs, [];
      for i := 0 to |known|
        invariant |result| == i && result == Replace(known, value)[..i]
      {
        result := result + [if known[i].runId == value.runId then value else known[i]];
      }
      runs := result;
    }

    method StopArrives(value: Option<Run>)
      requires Valid()
      modifies `runs, `run, `stopPending
      ensures Model() == Next(old(Model()), Step.StopArrives(value)) && Valid()
      ensures SelectedKeeps(old(run), run)
      ensures forall id :: Unresolved(old(Model()), id) && !Unresolved(Model(), id) ==>
                             Releases(old(Model()), Model(), id, Fresh(Step.StopArrives(value)))
    {
      NextInv(Model(), Step.StopArrives(value));
      StepGuarantees(Model(), Step.StopArrives(value));
      hide Inv, SelectedKeeps, Unresolved, Releases;
      if stopPending.None? { return; }
      var expected := stopPending.value;
      stopPending := None;
      if value.None? || !Matches(value.value, expected) || disposed { return; }
      if run.Some? && run.value.runId == expected.runId {
        var _ := AcceptRun(value.value);
      } else {
        var latest := Find(runs, expected.runId);
        if latest.None? || value.value.revision >= latest.value.revision {
          if latest.Some? && !Matches(value.value, latest.value) { return; }
          ReplaceRun(value.value);
        }
      }
    }

    // ---------- operator requests ----------

    method StartSelect(id: Text, select: bool)
      requires Valid()
      modifies `actionPending
      ensures Model() == Next(old(Model()), if select then Step.StartSelect(id) else StartReceipt(id)) && Valid()
    {
      NextInv(Model(), if select then Step.StartSelect(id) else StartReceipt(id));
      hide Inv;
      if disposed || actionPending.Some? || stopPending.Some? { return; }
      var known := Find(runs, id);
      if known.None? { return; }
      actionPending := Some(if select then Select(known.value) else Receipt(known.value));
    }

    method StartPrepare(ready: bool)
      requires Valid()
      modifies `actionPending
      ensures Model() == Next(old(Model()), Step.StartPrepare(ready)) && Valid()
      ensures actionPending != old(actionPending) ==> forall id :: !Unresolved(old(Model()), id)
    {
      NextInv(Model(), Step.StartPrepare(ready));
      forall id | Next(Model(), Step.StartPrepare(ready)).action != Model().action ensures !Unresolved(Model(), id) {
        PrepareWhenResolved(Model(), Step.StartPrepare(ready), id);
      }
      hide Inv, Unresolved;
      if disposed || actionPending.Some? || stopPending.Some? { return; }
      var open := FirstOpen();
      if !ready || open.Some? || (run.Some? && NeedsResolution(run.value)) { return; }
      actionPending := Some(Prepare);
    }

    method StartApprove(id: Text, runDigest: Text, approvalDigest: Text, approved: bool, ready: bool, now: int)
      requires Valid()
      modifies `actionPending
      ensures Model() == Next(old(Model()), Step.StartApprove(id, runDigest, approvalDigest, approved, ready, now))
      ensures Valid()
      ensures old(actionPending).None? ==>
                forall a :: actionPending == Some(a) <==>
                  !disposed && stopPending.None?
                  && ExecutionRequests.Asks(old(Model()), Step.StartApprove(id, runDigest, approvalDigest, approved,
                                                                            ready, now), a)
    {
      ghost var step := Step.StartApprove(id, runDigest, approvalDigest, approved, ready, now);
      NextInv(Model(), step);
      if actionPending.None? { AsksAction(Model(), step); }
      hide Inv, ExecutionRequests.Asks;
      if disposed || actionPending.Some? || stopPending.Some? { return; }
      if run.None? || run.value.runId != id || run.value.runDigest != runDigest { return; }
      if !ready || !run.value.phase.WaitingForApproval? || !run.value.stopStatus.NotRequested?
         || run.value.approval.approvedAt.Some? || run.value.approval.expiresAt <= now
         || !approved || approvalDigest != run.value.approval.digest { return; }
      actionPending := Some(Act(run.value));
    }

    method StartReconcile(id: Text, runDigest: Text, ready: bool)
      requires Valid()
      modifies `actionPending
      ensures Model() == Next(old(Model()), Step.StartReconcile(id, runDigest, ready)) && Valid()
      ensures old(actionPending).None? ==>
                forall a :: actionPending == Some(a) <==>
                  !disposed && stopPending.None?
                  && ExecutionRequests.Asks(old(Model()), Step.StartReconcile(id, runDigest, ready), a)
    {
      NextInv(Model(), Step.StartReconcile(id, runDigest, ready));
      if actionPending.None? { AsksAction(Model(), Step.StartReconcile(id, runDigest, ready)); }
      hide Inv, ExecutionRequests.Asks;
      if disposed || actionPending.Some? || stopPending.Some? { return; }
      if run.None? || run.value.runId != id || run.value.runDigest != runDigest { return; }
      if !ready || !run.value.phase.OutcomeUnknown? { return; }
      actionPending := Some(Act(run.value));
    }

    method TakeAnswer(action: Action, answer: Run)
      requires !disposed
      modifies `runs, `run
      ensures Model() == AcceptAction(old(Model()), action, answer)
    {
      hide Accept;
      match action {
        case Select(known) =>
          var latest := Find(runs, known.runId);
          var _ := AcceptRun(if latest.Some? && latest.value.revision > answer.revision then latest.value else answer);
        case Receipt(_) =>
          if run.Some? && run.value.runId == answer.runId { var _ := AcceptRun(answer); }
        case Prepare =>
          run := None;
          var _ := AcceptRun(answer);
        case Act(expected) =>
          if run.Some? && run.value.runId == expected.runId { var _ := AcceptRun(answer); }
      }
    }

    method ActionArrives(value: Option<Run>)
      requires Valid()
      modifies `runs, `run, `actionPending
      ensures Model() == Next(old(Model()), Step.ActionArrives(value)) && Valid()
      ensures SelectedKeeps(old(run), run)
      ensures forall id :: Unresolved(old(Model()), id) && !Unresolved(Model(), id) ==>
                Releases(old(Model()), Model(), id, Fresh(Step.ActionArrives(value)))
    {
      NextInv(Model(), Step.ActionArrives(value));
      StepGuarantees(Model(), Step.ActionArrives(value));
      hide Inv, SelectedKeeps, Unresolved, Releases, Fresh;
      if actionPending.None? { return; }
      var action := actionPending.value;
      if value.Some? && !disposed { TakeAnswer(action, value.value); }
      actionPending := None;
    }

    method Dispose()
      requires Valid()
      modifies `disposed
      ensures Model() == Next(old(Model()), Step.Dispose) && Valid()
    {
      NextInv(Model(), Step.Dispose);
      hide Inv;
      disposed := true;
    }
  }
}
