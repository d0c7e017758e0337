/**
 The pool of concurrent checks: workers share one counter, each takes the next check, waits
 for it, stores its outcome by index and takes the next. Any worker may settle at any time.
 */
module WorkerPools {
  import opened Options
  import opened Texts

  /** What one check ended with; every failure is caught and kept. */
  datatype Outcome = Passed(stdout: Text) | Failed(message: Text)

  /** `running` maps a worker to the check it waits for; `done` holds the workers that found none left. */
  datatype State = State(total: nat, workers: nat, next: nat, running: map<nat, nat>, done: set<nat>,
          results: seq<Option<Outcome>>)

  function Min(a: nat, b: nat): nat { if a < b then a else b }

  function Initial(total: nat, concurrency: nat): State {
    State(total, Min(concurrency, total), 0, map[], {}, seq(total, i => None))
  }

  datatype Step = Take(worker: nat) | Settle(worker: nat, outcome: Outcome)

  predicate Idle(s: State, worker: nat) {
    worker < s.workers && worker !in s.running && worker !in s.done
  }

  function Next(s: State, e: Step): State {
    match e
    case Take(worker) =>
      if !Idle(s, worker) then s
      else if s.next < s.total then s.(next := s.next + 1, running := s.running[worker := s.next])
      else s.(done := s.done + {worker})
    case Settle(worker, outcome) =>
      if worker !in s.running || s.running[worker] >= |s.results| then s
      else s.(running := s.running - {worker}, results := s.results[s.running[worker] := Some(outcome)])
  }

  /** Every worker has found the counter exhausted: the pool's promise settles. */
  predicate Complete(s: State) {
    forall w: nat :: w < s.workers ==> w in s.done
  }

  // ---------- what every step keeps ----------

  /** Some worker waits for every check that was taken and is not settled. */
  ghost predicate Covered(s: State) {
    forall i :: 0 <= i < s.next && i < |s.results| && s.results[i].None? ==> Awaited(s, i)
  }

  ghost predicate Awaited(s: State, i: nat) {
    exists w :: w in s.running && s.running[w] == i
  }

  /** Taken checks are settled or waited for by exactly one worker; the others are untouched. */
  ghost predicate Inv(s: State) {
    && s.next <= s.total && |s.results| == s.total && s.workers <= s.total
    && (forall w :: w in s.running ==> w < s.workers && w !in s.done && s.running[w] < s.next
                                       && s.results[s.running[w]].None?)
    && (forall v, w :: v in s.running && w in s.running && s.running[v] == s.running[w] ==> v == w)
    && Covered(s)
    && (forall i :: s.next <= i < s.total ==> s.results[i].None?)
    && (s.done != {} ==> s.next == s.total)
  }

  lemma {:induction false} TakeCovers(s: State, worker: nat)
    requires Covered(s) && Idle(s, worker) && s.next < s.total
    ensures Covered(Next(s, Take(worker)))
  {
    var t := Next(s, Take(worker));
    forall i | 0 <= i < t.next && i < |t.results| && t.results[i].None? ensures Awaited(t, i) {
      if i < s.next {
        assert Awaited(s, i);
        var w :| w in s.running && s.running[w] == i;
        assert t.running[w] == i;
      } else {
        assert t.running[worker] == i;
      }
    }
  }

  lemma {:induction false} TakeInv(s: State, worker: nat)
    requires Inv(s)
    ensures Inv(Next(s, Take(worker)))
  {
    if Idle(s, worker) && s.next < s.total { TakeCovers(s, worker); }
    hide Awaited;
  }

  lemma {:induction false} SettleInv(s: State, worker: nat, outcome: Outcome)
    requires Inv(s)
    ensures Inv(Next(s, Settle(worker, outcome)))
  {
    var t := Next(s, Settle(worker, outcome));
    if worker in s.running {
      forall i | 0 <= i < t.next && t.results[i].None? ensures Awaited(t, i) {
        assert Awaited(s, i);
        var w :| w in s.running && s.running[w] == i;
        assert t.running[w] == i;
      }
    }
    hide Awaited;
  }

  lemma {:induction false} NextInv(s: State, e: Step)
    requires Inv(s)
    ensures Inv(Next(s, e))
  {
    hide Inv, Next;
    match e
    case Take(worker) => TakeInv(s, worker);
    case Settle(worker, outcome) => SettleInv(s, worker, outcome);
  }

  // ---------- whole runs ----------

  function After(total: nat, concurrency: nat, steps: seq<Step>, n: nat): State
    requires n <= |steps|
  {
    if n == 0 then Initial(total, concurrency) else Next(After(total, concurrency, steps, n - 1), steps[n - 1])
  }

  lemma {:induction false} ReachableInv(total: nat, concurrency: nat, steps: seq<Step>, n: nat)
    requires n <= |steps|
    ensures Inv(After(total, concurrency, steps, n))
  {
    if n > 0 {
      hide Inv, Next;
      ReachableInv(total, concurrency, steps, n - 1);
      NextInv(After(total, concurrency, steps, n - 1), steps[n - 1]);
    }
  }

  lemma {:induction false} SameShape(total: nat, concurrency: nat, steps: seq<Step>, n: nat)
    requires n <= |steps|
    ensures var s := After(total, concurrency, steps, n); s.total == total && s.workers == Min(concurrency, total)
  {
    if n > 0 { SameShape(total, concurrency, steps, n - 1); }
  }

  /** The check that a step starts, if it starts one. */
  function Starts(s: State, e: Step): Option<nat> {
    if e.Take? && Idle(s, e.worker) && s.next < s.total then Some(s.next) else None
  }

  /** The check that a step settles, if it settles one. */
  function Settles(s: State, e: Step): Option<nat> {
    if e.Settle? && e.worker in s.running && s.running[e.worker] < |s.results| then Some(s.running[e.worker]) else None
  }

  /** One of the first n steps started check i. */
  ghost predicate WasStarted(total: nat, concurrency: nat, steps: seq<Step>, n: nat, i: nat)
    requires n <= |steps|
  {
    exists k :: 0 <= k < n && Starts(After(total, concurrency, steps, k), steps[k]) == Some(i)
  }

  lemma {:induction false} BelowNextWasStarted(total: nat, concurrency: nat, steps: seq<Step>, n: nat, i: nat)
    requires n <= |steps| && i < After(total, concurrency, steps, n).next
    ensures WasStarted(total, concurrency, steps, n, i)
  {
    if n > 0 {
      if i < After(total, concurrency, steps, n - 1).next {
        BelowNextWasStarted(total, concurrency, steps, n - 1, i);
      } else {
        assert Starts(After(total, concurrency, steps, n - 1), steps[n - 1]) == Some(i);
      }
    }
  }

  lemma {:induction false} CounterGrows(total: nat, concurrency: nat, steps: seq<Step>, i: nat, j: nat)
    requires i <= j <= |steps|
    ensures After(total, concurrency, steps, i).next <= After(total, concurrency, steps, j).next
    decreases j
  {
    if i < j { CounterGrows(total, concurrency, steps, i, j - 1); }
  }

  /** No check is started twice. */
  lemma {:induction false} StartedOnce(total: nat, concurrency: nat, steps: seq<Step>, j: nat, k: nat)
    requires j < |steps| && k < |steps| && Starts(After(total, concurrency, steps, j), steps[j]).Some?
    requires Starts(After(total, concurrency, steps, j), steps[j]) == Starts(After(total, concurrency, steps, k),
                 steps[k])
    ensures j == k
  {
    if j < k { CounterGrows(total, concurrency, steps, j + 1, k); }
    if k < j { CounterGrows(total, concurrency, steps, k + 1, j); }
  }

  /** At no time do more checks run than the concurrency allows. */
  lemma {:induction false} NeverTooMany(total: nat, concurrency: nat, steps: seq<Step>, n: nat)
    requires n <= |steps|
    ensures |After(total, concurrency, steps, n).running| <= concurrency
  {
    ReachableInv(total, concurrency, steps, n);
    SameShape(total, concurrency, steps, n);
    var s := After(total, concurrency, steps, n);
    hide After;
    KeysBounded(s.running.Keys, s.workers);
    assert |s.running| == |s.running.Keys|;
  }

  lemma {:induction false} KeysBounded(ks: set<nat>, n: nat)
    requires forall k :: k in ks ==> k < n
    ensures |ks| <= n
    decreases n
  {
    if n > 0 {
      KeysBounded(ks - {n - 1}, n - 1);
      assert ks <= (ks - {n - 1}) + {n - 1};
    }
  }

  /** When the pool settles, every check was started and every result is there. */
  lemma {:induction false} CompleteIsFull(total: nat, concurrency: nat, steps: seq<Step>, n: nat)
    requires n <= |steps| && concurrency > 0 && Complete(After(total, concurrency, steps, n))
    ensures var s := After(total, concurrency, steps, n);
            s.next == total == |s.results| && s.running == map[] && forall i :: 0 <= i < total ==> s.results[i].Some?
    ensures forall i :: 0 <= i < total ==> WasStarted(total, concurrency, steps, n, i)
  {
    ReachableInv(total, concurrency, steps, n);
    SameShape(total, concurrency, steps, n);
    var s := After(total, concurrency, steps, n);
    hide After;
    assert forall w :: w in s.running ==> w in s.done;
    assert s.running == map[];
    if total > 0 { assert 0 in s.done; }
    forall i | 0 <= i < total ensures s.results[i].Some? { assert !Awaited(s, i); }
    forall i | 0 <= i < total ensures WasStarted(total, concurrency, steps, n, i) {
      BelowNextWasStarted(total, concurrency, steps, n, i);
    }
  }

  /** Result i is the outcome with which check i settled, and stays so. */
  lemma {:induction false} ResultIsItsOutcome(total: nat, concurrency: nat, steps: seq<Step>, n: nat, i: nat,
            outcome: Outcome)
    requires n <= |steps| && i < total && |After(total, concurrency, steps, n).results| == total
    requires After(total, concurrency, steps, n).results[i] == Some(outcome)
    ensures exists k :: 0 <= k < n && Settles(After(total, concurrency, steps, k), steps[k]) == Some(i)
                        && steps[k] == Settle(steps[k].worker, outcome)
  {
    if n > 0 {
      var s := After(total, concurrency, steps, n - 1);
      ReachableInv(total, concurrency, steps, n - 1);
      SameShape(total, concurrency, steps, n - 1);
      if s.results[i] == Some(outcome) {
        ResultIsItsOutcome(total, concurrency, steps, n - 1, i, outcome);
      } else {
        assert Settles(s, steps[n - 1]) == Some(i);
      }
    }
  }

  /** Every running check belongs to a worker of its own, so no more run than there are workers. */
  lemma RunningBounded(s: State)
    requires Inv(s)
    ensures |s.running| <= s.workers
  {
    KeysBounded(s.running.Keys, s.workers);
    assert |s.running| == |s.running.Keys|;
  }

  // ---------- the pool in place ----------

  class Pool {
    const total: nat
    const workers: nat
    var next: nat
    var running: map<nat, nat>
    var done: set<nat>
    var results: seq<Option<Outcome>>

    ghost function Model(): State
      reads this
    {
      State(total, workers, next, running, done, results)
    }

    /** What every reachable state satisfies. */
    ghost predicate Valid()
      reads this
    {
      Inv(Model())
    }

    constructor (total: nat, concurrency: nat)
      ensures Model() == Initial(total, concurrency) && Valid()
    {
      this.total, workers := total, Min(concurrency, total);
      next, running, done := 0, map[], {};
      results := seq(total, i => None);
    }

    method TakeNext(worker: nat)
      modifies this
      ensures Model() == Next(old(Model()), Take(worker))
    {
      if worker >= workers || worker in running || worker in done { return; }
      if next < total {
        running := running[worker := next];
        next := next + 1;
      } else {
        done := done + {worker};
      }
    }

    method WorkerTakes(worker: nat)
      requires Valid()
      modifies this
      ensures Model() == Next(old(Model()), Take(worker)) && Valid()
      ensures next > old(next) ==> next == old(next) + 1 && worker !in old(running) && worker in running
                                   && running[worker] == old(next)
      ensures |running| <= workers
    {
      NextInv(Model(), Take(worker));
      RunningBounded(Next(Model(), Take(worker)));
      hide Inv;
      TakeNext(worker);
    }

    method SettleWorker(worker: nat, outcome: Outcome)
      modifies this
      ensures Model() == Next(old(Model()), Settle(worker, outcome)) && next == old(next)
    {
      if worker !in running || running[worker] >= |results| { return; }
      results := results[running[worker] := Some(outcome)];
      running := running - {worker};
    }

    method WorkerSettles(worker: nat, outcome: Outcome)
      requires Valid()
      modifies this
      ensures Model() == Next(old(Model()), Settle(worker, outcome)) && Valid()
      ensures next == old(next) && |running| <= workers
    {
      NextInv(Model(), Settle(worker, outcome));
      RunningBounded(Next(Model(), Settle(worker, outcome)));
      hide Inv, Next;
      SettleWorker(worker, outcome);
    }

    /** What the call returns once every check settled: all outputs in order, or every failure in order. */
    method Collect() returns (outputs: seq<Text>, failures: seq<Text>)
      requires forall i :: 0 <= i < |results| ==> results[i].Some?
      ensures failures == Messages(results)
      ensures failures == [] ==> |outputs| == |results|
                                 && forall i :: 0 <= i < |results| ==> results[i] == Some(Passed(outputs[i]))
    {
      outputs, failures := [], [];
      var i := 0;
      while i < |results|
        invariant 0 <= i <= |results|
        invariant failures == Messages(results[..i])
        invariant failures == [] ==> |outputs| == i && forall j :: 0 <= j < i ==> results[j] == Some(Passed(outputs[j]))
      {
        assert results[..i + 1][..i] == results[..i];
        match results[i].value {
          case Passed(stdout) => outputs := outputs + [stdout];
          case Failed(message) => failures := failures + [message];
        }
        i := i + 1;
      }
      assert results[..i] == results;
    }
  }

  function Messages(rs: seq<Option<Outcome>>): seq<Text> {
    if rs == [] then []
    else
      Messages(rs[..|rs| - 1]) + (match rs[|rs| - 1] case Some(Failed(message)) => [message] case _ => [])
  }

  /** The call throws exactly when some check failed. */
  lemma {:induction false} ThrowsIffFailed(rs: seq<Option<Outcome>>)
    ensures Messages(rs) != [] <==> exists i :: 0 <= i < |rs| && rs[i].Some? && rs[i].value.Failed?
  {
    if rs != [] {
      var front := rs[..|rs| - 1];
      ThrowsIffFailed(front);
      if i :| 0 <= i < |rs| && rs[i].Some? && rs[i].value.Failed? && i < |front| { assert front[i] == rs[i]; }
      if i :| 0 <= i < |front| && front[i].Some? && front[i].value.Failed? { assert rs[i] == front[i]; }
    }
  }
}
