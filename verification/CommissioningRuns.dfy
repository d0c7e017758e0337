/**
 The commissioning controller over whole runs: responses late, overtaken or failed, in any order.
 */
module CommissioningRuns {
  import opened Options
  import opened Texts
  import opened Commissioning
  import opened CommissioningProtocol

  /** The state after the first n steps of a controller that starts from a saved status or none. */
  function After(recoveryOnly: bool, start: Option<Status>, steps: seq<Step>, n: nat): State
    requires n <= |steps|
  {
    if n == 0 then Initial(start) else Next(recoveryOnly, After(recoveryOnly, start, steps, n - 1), steps[n - 1])
  }

  lemma {:induction false} ReachableInv(recoveryOnly: bool, start: Option<Status>, steps: seq<Step>, n: nat)
    requires n <= |steps|
    ensures Inv(After(recoveryOnly, start, steps, n))
  {
    if n > 0 {
      hide Next, Inv;
      ReachableInv(recoveryOnly, start, steps, n - 1);
      NextInv(recoveryOnly, After(recoveryOnly, start, steps, n - 1), steps[n - 1]);
    }
  }

  lemma {:induction false} EpochGrows(recoveryOnly: bool, start: Option<Status>, steps: seq<Step>, i: nat, j: nat)
    requires i <= j <= |steps|
    ensures After(recoveryOnly, start, steps, i).epoch <= After(recoveryOnly, start, steps, j).epoch
    decreases j
  {
    if i < j {
      hide Next, Inv;
      EpochGrows(recoveryOnly, start, steps, i, j - 1);
      ReachableInv(recoveryOnly, start, steps, j - 1);
      NextInv(recoveryOnly, After(recoveryOnly, start, steps, j - 1), steps[j - 1]);
    }
  }

  // ---------- the retained trial ----------

  ghost predicate ActiveThroughout(recoveryOnly: bool, start: Option<Status>, steps: seq<Step>, i: nat, j: nat)
    requires i <= j <= |steps|
  {
    forall k :: i <= k <= j ==> Active(After(recoveryOnly, start, steps, k))
  }

  /** The same trial, session and configuration, and an unknown outcome stays unknown. */
  predicate Held(a: Status, b: Status) {
    Retains(b, a) && b.nodeSessionId == a.nodeSessionId
        && (a.trial.value.phase.Unknown? ==> b.trial.value.phase.Unknown?)
  }

  lemma HeldTransitive(a: Status, b: Status, c: Status)
    requires Held(a, b) && Held(b, c)
    ensures Held(a, c)
  {
  }

  lemma RetainedIsHeld(a: Status, b: Status)
    requires Unresolved(a) && Unresolved(b) && RetainedStep(a, b)
    ensures Held(a, b)
  {
  }

  lemma HeldSelf(a: Status)
    requires Unresolved(a)
    ensures Held(a, a)
  {
  }

  lemma {:induction false} TrialStep(recoveryOnly: bool, start: Option<Status>, steps: seq<Step>, k: nat)
    requires k < |steps| && Active(After(recoveryOnly, start, steps, k))
             && Active(After(recoveryOnly, start, steps, k + 1))
    ensures Held(After(recoveryOnly, start, steps, k).status.value,
                After(recoveryOnly, start, steps, k + 1).status.value)
  {
    ReachableInv(recoveryOnly, start, steps, k);
    var s := After(recoveryOnly, start, steps, k);
    assert After(recoveryOnly, start, steps, k + 1) == Next(recoveryOnly, s, steps[k]);
    hide Next, Inv, Held, RetainedStep, Unresolved, After;
    TrialRetained(recoveryOnly, s, steps[k]);
    RetainedIsHeld(s.status.value, Next(recoveryOnly, s, steps[k]).status.value);
  }

  /**
   For as long as a trial stays unresolved it is the same trial, in the same session, under the same
   configuration.
   */
  lemma {:induction false} TrialHeld(recoveryOnly: bool, start: Option<Status>, steps: seq<Step>, i: nat, j: nat)
    requires i <= j <= |steps| && ActiveThroughout(recoveryOnly, start, steps, i, j)
    ensures Held(After(recoveryOnly, start, steps, i).status.value, After(recoveryOnly, start, steps, j).status.value)
    decreases j
  {
    hide After, Held, Unresolved;
    assert Active(After(recoveryOnly, start, steps, i)) && Active(After(recoveryOnly, start, steps, j));
    if i == j {
      HeldSelf(After(recoveryOnly, start, steps, i).status.value);
    } else {
      assert Active(After(recoveryOnly, start, steps, j - 1));
      TrialHeld(recoveryOnly, start, steps, i, j - 1);
      TrialStep(recoveryOnly, start, steps, j - 1);
      HeldTransitive(After(recoveryOnly, start, steps, i).status.value,
              After(recoveryOnly, start, steps, j - 1).status.value,
                     After(recoveryOnly, start, steps, j).status.value);
    }
  }

  /** An unknown outcome, however long it lasts, ends only through a receipt for the very trial it was about. */
  lemma {:induction false} UnknownTrialReleased(recoveryOnly: bool, start: Option<Status>, steps: seq<Step>, i: nat,
            j: nat)
    requires i <= j < |steps| && ActiveThroughout(recoveryOnly, start, steps, i, j)
    requires After(recoveryOnly, start, steps, i).status.value.trial.value.phase.Unknown?
    requires !Active(After(recoveryOnly, start, steps, j + 1))
    ensures After(recoveryOnly, start, steps, j + 1).status.Some?
    ensures EndedBy(After(recoveryOnly, start, steps, i).status.value,
                After(recoveryOnly, start, steps, j + 1).status.value)
  {
    var a, b := After(recoveryOnly, start, steps, i), After(recoveryOnly, start, steps, j);
    assert Active(a) && Active(b) && After(recoveryOnly, start, steps, j + 1) == Next(recoveryOnly, b, steps[j]);
    TrialHeld(recoveryOnly, start, steps, i, j);
    ReachableInv(recoveryOnly, start, steps, j);
    hide Next, Inv, After;
    UnknownEndsByClearance(recoveryOnly, b, steps[j]);
  }

  // ---------- Stop comes first ----------

  predicate Answers(s: State, e: Step, revision: nat) {
    || (e.StatusArrives? && s.reading == Some(revision))
    || ((e.ObservedArrives? || e.RecoveryArrives? || e.RequestArrives?) && s.pending.Some?
        && s.pending.value.revision == revision)
  }

  /** Once a Stop has started, no answer to a request issued before it changes the trial status. */
  lemma {:induction false} StopComesFirst(recoveryOnly: bool, start: Option<Status>, steps: seq<Step>, i: nat, j: nat,
            revision: nat)
    requires i < j < |steps| && steps[i].StartStop?
    requires After(recoveryOnly, start, steps, i).stop.None? && After(recoveryOnly, start, steps, i + 1).stop.Some?
    requires revision <= After(recoveryOnly, start, steps, i).epoch
             && Answers(After(recoveryOnly, start, steps, j), steps[j], revision)
    ensures After(recoveryOnly, start, steps, j + 1).status == After(recoveryOnly, start, steps, j).status
  {
    var s := After(recoveryOnly, start, steps, i);
    assert After(recoveryOnly, start, steps, i + 1) == Next(recoveryOnly, s, steps[i]);
    assert After(recoveryOnly, start, steps, i + 1).epoch == s.epoch + 1;
    EpochGrows(recoveryOnly, start, steps, i + 1, j);
    ReachableInv(recoveryOnly, start, steps, j);
    var t := After(recoveryOnly, start, steps, j);
    assert After(recoveryOnly, start, steps, j + 1) == Next(recoveryOnly, t, steps[j]);
    hide Next, After, Inv;
    StaleAnswerIgnored(recoveryOnly, t, steps[j]);
  }

  /** While a Stop is pending only its own answer may change the status. */
  lemma {:induction false} OnlyStopAnswers(recoveryOnly: bool, start: Option<Status>, steps: seq<Step>, j: nat)
    requires j < |steps| && After(recoveryOnly, start, steps, j).stop.Some? && !steps[j].StopArrives?
    ensures After(recoveryOnly, start, steps, j + 1).status == After(recoveryOnly, start, steps, j).status
  {
    ReachableInv(recoveryOnly, start, steps, j);
    var s, e := After(recoveryOnly, start, steps, j), steps[j];
    assert After(recoveryOnly, start, steps, j + 1) == Next(recoveryOnly, s, e);
    hide After;
    if !Response(e) {
      hide Next, Inv;
      OtherKeeps(recoveryOnly, s, e);
    } else if (e.StatusArrives? && s.reading.Some?) || (!e.StatusArrives? && s.pending.Some?) {
      hide Next;
      StaleAnswerIgnored(recoveryOnly, s, e);
    } else {
      hide Inv, Read, Observed, Take, TakeRecovery;
    }
  }

  // ---------- authority is sent once ----------

  ghost predicate SentAt(recoveryOnly: bool, start: Option<Status>, steps: seq<Step>, i: nat, m: Send) {
    i < |steps| && Sends(After(recoveryOnly, start, steps, i), steps[i]) == Some(m)
  }

  lemma {:induction false} NotedStays(recoveryOnly: bool, start: Option<Status>, steps: seq<Step>, i: nat, j: nat,
            m: Send)
    requires i <= j <= |steps| && Noted(After(recoveryOnly, start, steps, i), m)
    ensures Noted(After(recoveryOnly, start, steps, j), m)
    decreases j
  {
    hide Next, Inv;
    if i < j {
      NotedStays(recoveryOnly, start, steps, i, j - 1, m);
      ReachableInv(recoveryOnly, start, steps, j - 1);
      NotedGrows(recoveryOnly, After(recoveryOnly, start, steps, j - 1), steps[j - 1]);
    }
  }

  /** An approval of one trial, or a confirmation of one offer, is sent at most once in a whole run. */
  lemma {:induction false} SentOnce(recoveryOnly: bool, start: Option<Status>, steps: seq<Step>, i: nat, j: nat,
            m: Send)
    requires SentAt(recoveryOnly, start, steps, i, m) && SentAt(recoveryOnly, start, steps, j, m)
    ensures i == j
  {
    SendNoted(recoveryOnly, After(recoveryOnly, start, steps, i), steps[i]);
    SendNoted(recoveryOnly, After(recoveryOnly, start, steps, j), steps[j]);
    assert Noted(After(recoveryOnly, start, steps, i + 1), m) && Noted(After(recoveryOnly, start, steps, j + 1), m);
    hide Next, After, Noted, Sends;
    if i < j { NotedStays(recoveryOnly, start, steps, i + 1, j, m); }
    if j < i { NotedStays(recoveryOnly, start, steps, j + 1, i, m); }
  }

  ghost predicate Decoded(start: Option<Status>, steps: seq<Step>) {
    CleanStatus(start) && forall i :: 0 <= i < |steps| ==> CleanStatus(Answered(steps[i]))
  }

  lemma {:induction false} ReachableClean(recoveryOnly: bool, start: Option<Status>, steps: seq<Step>, n: nat)
    requires n <= |steps| && Decoded(start, steps)
    ensures Clean(After(recoveryOnly, start, steps, n))
  {
    hide Next, Inv, CleanStatus;
    if n == 0 {
      NothingIsClean();
    } else {
      ReachableClean(recoveryOnly, start, steps, n - 1);
      ReachableInv(recoveryOnly, start, steps, n - 1);
      CleanKept(recoveryOnly, After(recoveryOnly, start, steps, n - 1), steps[n - 1]);
    }
  }

  lemma NothingIsClean()
    ensures CleanStatus(None)
  {
  }

  /**
   A send is held back as already attempted exactly when that very send was made: the joined keys
   never confuse two.
   */
  lemma {:induction false} NotedIffSent(recoveryOnly: bool, start: Option<Status>, steps: seq<Step>, n: nat, m: Send)
    requires n <= |steps| && Decoded(start, steps) && NoColon(m.session) && NoColon(m.trial)
    ensures Noted(After(recoveryOnly, start, steps, n), m)
            <==> exists i :: 0 <= i < n && SentAt(recoveryOnly, start, steps, i, m)
  {
    if i :| 0 <= i < n && SentAt(recoveryOnly, start, steps, i, m) {
      SendNoted(recoveryOnly, After(recoveryOnly, start, steps, i), steps[i]);
      assert Noted(After(recoveryOnly, start, steps, i + 1), m);
      NotedStays(recoveryOnly, start, steps, i + 1, n, m);
    }
    if Noted(After(recoveryOnly, start, steps, n), m) { NotedWasSent(recoveryOnly, start, steps, n, m); }
  }

  lemma {:induction false} NotedWasSent(recoveryOnly: bool, start: Option<Status>, steps: seq<Step>, n: nat, m: Send)
    requires n <= |steps| && Decoded(start, steps) && NoColon(m.session) && NoColon(m.trial)
    requires Noted(After(recoveryOnly, start, steps, n), m)
    ensures exists i :: 0 <= i < n && SentAt(recoveryOnly, start, steps, i, m)
  {
    hide Next, Inv, CleanStatus, NoColon, Sends;
    if n > 0 {
      if Noted(After(recoveryOnly, start, steps, n - 1), m) {
        NotedWasSent(recoveryOnly, start, steps, n - 1, m);
      } else {
        ReachableClean(recoveryOnly, start, steps, n - 1);
        ReachableInv(recoveryOnly, start, steps, n - 1);
        NotedBySend(recoveryOnly, After(recoveryOnly, start, steps, n - 1), steps[n - 1], m);
        assert SentAt(recoveryOnly, start, steps, n - 1, m);
      }
    }
  }

  // ---------- a release that names another device ----------

  /** The fields of a reading that the contract checks have the form it asks for. */
  predicate WellShaped(v: Status) {
    && IsId(v.nodeSessionId) && (v.trialNodeSessionId.Some? ==> IsId(v.trialNodeSessionId.value))
    && (v.configuration.Some? ==> IsHash(v.configuration.value.digest)
                                  && 1 <= |v.configuration.value.deviceIdentity| <= 256)
    && (v.trial.Some? ==>
          && IsId(v.trial.value.trialId) && IsHash(v.trial.value.digest)
          && 0.0 <= v.trial.value.targetPosition <= 100.0 && 0.001 <= v.trial.value.maximumDurationSeconds <= 120.0)
    && (v.recoveryClearance.Some? ==> WellShapedBinding(v.recoveryClearance.value))
  }

  predicate WellShapedBinding(b: Binding) {
    && IsId(b.trialId) && IsId(b.trialNodeSessionId) && IsHash(b.trialDigest) && IsHash(b.configurationDigest)
    && 1 <= |b.deviceIdentity| <= 256
  }

  function Digit(digit: Unit): Text
    requires HexUnit(digit)
  {
    HexText("sha256:", digit, 64)
  }

  function Gripper(device: Text, clearance: Option<Binding>): Status {
    Status(T("s"), Some(Configuration(Digit(0x30), device)),
           Some(Trial(T("t"), Digit(0x31), Unknown, 0, 0.0, 1.0, 1.0, None)),
           false, false, false, Some(T("s")), None, clearance, false, false)
  }

  lemma GripperShaped(device: Text, clearance: Option<Binding>)
    requires 1 <= |device| <= 256 && (clearance.Some? ==> WellShapedBinding(clearance.value))
    ensures WellShaped(Gripper(device, clearance))
  {
    assert T("s")[0] == 0x73 && T("t")[0] == 0x74;
  }

  function Reading(next: Status): seq<Step> { [StartRefresh, StatusArrives(Some(next), 0)] }

  lemma ReadingTaken(a: Status, b: Status)
    requires MayAccept(Initial(Some(a)), b)
    ensures After(false, Some(a), Reading(b), 0).status == Some(a)
            && After(false, Some(a), Reading(b), 2).status == Some(b)
  {
    hide MayAccept, Cleared;
    var steps, s := Reading(b), Initial(Some(a));
    assert After(false, Some(a), steps, 1) == s.(reading := Some(0));
    assert MayAccept(s.(reading := Some(0)), b) <==> MayAccept(s, b) by { AcceptIgnoresReading(s, b); }
    assert MayAccept(s.(reading := None), b);
  }

  lemma AcceptIgnoresReading(s: State, next: Status)
    ensures MayAccept(s.(reading := Some(0)), next) <==> MayAccept(s, next)
    ensures MayAccept(s.(reading := None), next) <==> MayAccept(s, next)
  {
    hide CheckBound;
  }

  /**
   One refresh may end an unknown outcome by a receipt for another device: an exact reading is
   compared by configuration digest only. Both readings have the form the contract asks for.
   */
  lemma ReleaseMayNameAnotherDevice()
    ensures exists a, b ::
      && WellShaped(a) && WellShaped(b)
      && var before, after := After(false, Some(a), Reading(b), 0), After(false, Some(a), Reading(b), 2);
         && Active(before) && before.status.value.trial.value.phase.Unknown?
         && after.status == Some(b) && !Active(after) && EndedBy(a, b)
         && !RecoveryMatches(b.recoveryClearance.value, a)
  {
    var receipt := Binding(T("t"), Digit(0x31), T("s"), Digit(0x30), T("y"));
    var a := Gripper(T("x"), None);
    var b := Gripper(T("y"), Some(receipt));
    assert T("x")[0] != T("y")[0];
    assert WellShapedBinding(receipt) by { assert T("s")[0] == 0x73 && T("t")[0] == 0x74; }
    GripperShaped(T("x"), None);
    GripperShaped(T("y"), Some(receipt));
    assert Unresolved(a) && MayAccept(Initial(Some(a)), b) && EndedBy(a, b) && !RecoveryMatches(receipt, a)
           && !Unresolved(b);
    hide WellShaped, MayAccept, EndedBy, Unresolved, RecoveryMatches, After;
    ReadingTaken(a, b);
    assert b.recoveryClearance == Some(receipt);
    var before, after := After(false, Some(a), Reading(b), 0), After(false, Some(a), Reading(b), 2);
    assert Active(before) && !Active(after);
    assert WellShaped(a) && WellShaped(b);
  }
}
