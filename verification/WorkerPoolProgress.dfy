/**
 The pool of checks gets done: whatever the order in which workers settle, it takes one step for
 every start, one for every outcome and one for every worker that finds nothing left.
 */
module WorkerPoolProgress {
  import opened Options
  import opened WorkerPools

  /** The step has something to do: an idle worker takes its turn, or a check that runs ends. */
  predicate Does(s: State, e: Step) {
    match e
    case Take(worker) => worker < s.workers && worker !in s.running && worker !in s.done
    case Settle(worker, _) => worker in s.running
  }

  /** An idle worker takes the next check, or none when all are taken; an outcome is stored at its check's place. */
  ghost predicate Leaves(s: State, t: State, e: Step) {
    if !Does(s, e) then t == s
    else
      match e
      case Take(worker) =>
        if s.next < s.total then
          && t.next == s.next + 1 && worker in t.running && t.running[worker] == s.next
          && (forall w :: w in t.running <==> w in s.running || w == worker)
          && (forall w :: w in s.running ==> t.running[w] == s.running[w])
          && t == s.(next := t.next, running := t.running)
        else
          t == s.(done := t.done) && forall w :: w in t.done <==> w in s.done || w == worker
      case Settle(worker, outcome) =>
        && |t.results| == |s.results|
        && (forall i :: 0 <= i < |s.results| ==>
              t.results[i] == if i == s.running[worker] then Some(outcome) else s.results[i])
        && (forall w :: w in t.running <==> w in s.running && w != worker)
        && (forall w :: w in t.running ==> t.running[w] == s.running[w])
        && t == s.(running := t.running, results := t.results)
  }

  lemma StepLeaves(s: State, e: Step)
    requires Inv(s)
    ensures Leaves(s, Next(s, e), e)
  {
    hide Covered;
  }

  /** A pool starts with no more workers than checks and than the concurrency allows, and nothing taken. */
  lemma StartsWith(total: nat, concurrency: nat)
    ensures var s := Initial(total, concurrency);
            && s.total == total && s.workers == (if concurrency < total then concurrency else total)
            && s.next == 0 && s.running == map[] && s.done == {}
            && |s.results| == total && forall i :: 0 <= i < total ==> s.results[i] == None
  {
  }

  /** Two steps for every check not taken yet, one for each that runs, one for every worker not done. */
  function Left(s: State): int {
    2 * (s.total - s.next) + |s.running| + s.workers - |s.done|
  }

  /** The workers that are done are workers. */
  predicate DoneAreWorkers(s: State) { forall w :: w in s.done ==> w < s.workers }

  lemma DoneKept(s: State, e: Step)
    requires DoneAreWorkers(s)
    ensures DoneAreWorkers(Next(s, e))
  {
  }

  lemma {:induction false} StepCounts(s: State, e: Step)
    requires Inv(s)
    ensures Left(Next(s, e)) == Left(s) - (if Does(s, e) then 1 else 0)
  {
    StepLeaves(s, e);
    var t := Next(s, e);
    hide Inv, Next;
    if Does(s, e) {
      match e
      case Take(worker) =>
        if s.next < s.total { OneMoreKey(s.running, t.running, worker); } else { OneMore(s.done, t.done, worker); }
      case Settle(worker, _) => OneMoreKey(t.running, s.running, worker);
    }
  }

  lemma OneMore(a: set<nat>, b: set<nat>, x: nat)
    requires x !in a && forall w :: w in b <==> w in a || w == x
    ensures |b| == |a| + 1
  {
    assert b == a + {x};
  }

  lemma OneMoreKey(a: map<nat, nat>, b: map<nat, nat>, x: nat)
    requires x !in a && forall w :: w in b <==> w in a || w == x
    ensures |b| == |a| + 1
  {
    OneMore(a.Keys, b.Keys, x);
    assert |a| == |a.Keys| && |b| == |b.Keys|;
  }

  lemma {:induction false} AllOf(ks: set<nat>, n: nat)
    requires forall k :: k in ks ==> k < n
    ensures |ks| <= n && (|ks| == n <==> forall k: nat :: k < n ==> k in ks)
    decreases n
  {
    if n == 0 {
      assert ks == {};
    } else {
      var rest: nat := n - 1;
      AllOf(ks - {rest}, rest);
      if rest in ks {
        assert ks == (ks - {rest}) + {rest};
      } else {
        assert ks - {rest} == ks;
      }
    }
  }

  /** Until the pool settles some worker has something to do, whatever outcome it is given. */
  lemma {:induction false} NeverStuck(s: State, outcome: Outcome) returns (e: Step)
    requires Inv(s) && !Complete(s)
    ensures Does(s, e) && (e.Settle? ==> e.outcome == outcome)
  {
    var w: nat :| w < s.workers && w !in s.done;
    e := if w in s.running then Settle(w, outcome) else Take(w);
  }

  lemma {:induction false} CompleteIff(s: State)
    requires Inv(s) && DoneAreWorkers(s) && (s.workers > 0 || s.total == 0)
    ensures Left(s) >= 0 && (Complete(s) <==> Left(s) == 0)
  {
    AllOf(s.done, s.workers);
    KeysBounded(s.running.Keys, s.workers);
    assert |s.running| == |s.running.Keys|;
    if Complete(s) {
      assert forall w :: w in s.running ==> w in s.done;
      assert s.running == map[];
      if s.workers > 0 { assert 0 in s.done; }
    }
    hide Covered;
  }

  function Doing(total: nat, concurrency: nat, steps: seq<Step>, n: nat): nat
    requires n <= |steps|
  {
    if n == 0 then 0
    else
      Doing(total, concurrency, steps, n - 1)
      + (if Does(After(total, concurrency, steps, n - 1), steps[n - 1]) then 1 else 0)
  }

  lemma {:induction false} LeftAfter(total: nat, concurrency: nat, steps: seq<Step>, n: nat)
    requires n <= |steps|
    ensures Left(After(total, concurrency, steps, n))
            == 2 * total + Min(concurrency, total) - Doing(total, concurrency, steps, n)
    ensures DoneAreWorkers(After(total, concurrency, steps, n))
  {
    if n > 0 {
      var s := After(total, concurrency, steps, n - 1);
      LeftAfter(total, concurrency, steps, n - 1);
      ReachableInv(total, concurrency, steps, n - 1);
      hide Next, Inv, Does;
      StepCounts(s, steps[n - 1]);
      DoneKept(s, steps[n - 1]);
    }
  }

  /**
   In every run the pool settles exactly when as many steps did something as there are starts,
   outcomes and workers: twice the number of checks and once the smaller of checks and concurrency.
   */
  lemma {:induction false} SettlesAfter(total: nat, concurrency: nat, steps: seq<Step>, n: nat)
    requires n <= |steps| && concurrency > 0
    ensures var done := Doing(total, concurrency, steps, n);
            var all := 2 * total + if concurrency < total then concurrency else total;
            done <= all && (Complete(After(total, concurrency, steps, n)) <==> done == all)
  {
    LeftAfter(total, concurrency, steps, n);
    ReachableInv(total, concurrency, steps, n);
    SameShape(total, concurrency, steps, n);
    hide After, Inv, Doing, Left, Complete;
    CompleteIff(After(total, concurrency, steps, n));
  }
}
