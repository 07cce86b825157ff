/** Batching of one step's tool calls: runs of safe calls may overlap, every other call is a barrier. */
module ToolScheduler {
  import opened Common

  datatype Batch<T> = Batch(calls: seq<T>, concurrent: bool)

  function Flatten<T>(batches: seq<Batch<T>>): seq<T> {
    if batches == [] then [] else Flatten(Front(batches)) + Last(batches).calls
  }

  predicate AllSafe<T>(calls: seq<T>, safe: T -> bool) {
    forall i :: 0 <= i < |calls| ==> safe(calls[i])
  }

  /** Fewer than two workers switch overlapping off, whatever the calls are. */
  function Effective<T>(safe: T -> bool, maxWorkers: int): T -> bool {
    c => maxWorkers >= 2 && safe(c)
  }

  /** A batch is one barrier, or a run of safe calls that overlaps if it has two or more. */
  ghost predicate BatchFits<T>(b: Batch<T>, safe: T -> bool) {
    b.calls != [] && (AllSafe(b.calls, safe) || |b.calls| == 1) && b.concurrent == (|b.calls| > 1)
  }

  /** Neighbouring batches do not both belong to one run of safe calls. */
  ghost predicate Apart<T>(a: Batch<T>, b: Batch<T>, safe: T -> bool) {
    a.calls != [] && b.calls != [] && !(safe(Last(a.calls)) && safe(b.calls[0]))
  }

  /** Fitting batches, as long as possible, that hold the calls in order. */
  ghost predicate IsPlan<T>(batches: seq<Batch<T>>, calls: seq<T>, safe: T -> bool) {
    && Flatten(batches) == calls
    && (forall i :: 0 <= i < |batches| ==> BatchFits(batches[i], safe))
    && (forall i :: 0 < i < |batches| ==> Apart(batches[i - 1], batches[i], safe))
  }

  lemma FlattenOne<T>(batches: seq<Batch<T>>, b: Batch<T>)
    ensures Flatten(batches + [b]) == Flatten(batches) + b.calls
  {
    assert Front(batches + [b]) == batches && Last(batches + [b]) == b;
  }

  lemma AddBatch<T>(batches: seq<Batch<T>>, calls: seq<T>, b: Batch<T>, safe: T -> bool)
    requires IsPlan(batches, calls, safe) && BatchFits(b, safe)
    requires batches != [] ==> Apart(Last(batches), b, safe)
    ensures IsPlan(batches + [b], calls + b.calls, safe)
  {
    FlattenOne(batches, b);
  }

  lemma LastOfPlan<T>(batches: seq<Batch<T>>, calls: seq<T>, safe: T -> bool)
    requires IsPlan(batches, calls, safe)
    ensures (batches == []) == (calls == [])
    ensures batches != [] ==>
              var b := Last(batches);
              BatchFits(b, safe) && |b.calls| <= |calls| && calls[|calls| - |b.calls|..] == b.calls
              && Last(b.calls) == Last(calls)
  {
    if batches != [] {
      assert BatchFits(batches[|batches| - 1], safe);
      assert calls == Flatten(Front(batches)) + Last(batches).calls;
    }
  }

  /** A plan of the first calls, and the run of safe calls collected since. */
  ghost predicate Progress<T>(batches: seq<Batch<T>>, done: seq<T>, run: seq<T>, calls: seq<T>, safe: T -> bool) {
    && IsPlan(batches, done, safe) && done + run == calls && AllSafe(run, safe)
    && (done != [] ==> !safe(Last(done)))
  }

  lemma Extend<T>(batches: seq<Batch<T>>, done: seq<T>, run: seq<T>, calls: seq<T>, c: T, safe: T -> bool)
    requires Progress(batches, done, run, calls, safe) && safe(c)
    ensures Progress(batches, done, run + [c], calls + [c], safe)
  {
    hide IsPlan;
    assert done + (run + [c]) == calls + [c];
  }

  lemma Flush<T>(batches: seq<Batch<T>>, done: seq<T>, run: seq<T>, calls: seq<T>, safe: T -> bool)
    requires Progress(batches, done, run, calls, safe) && run != []
    ensures IsPlan(batches + [Batch(run, |run| > 1)], calls, safe)
  {
    LastOfPlan(batches, done, safe);
    hide IsPlan;
    AddBatch(batches, done, Batch(run, |run| > 1), safe);
  }

  lemma AddBarrier<T>(batches: seq<Batch<T>>, calls: seq<T>, c: T, safe: T -> bool)
    requires IsPlan(batches, calls, safe) && !safe(c)
    ensures Progress(batches + [Batch([c], false)], calls + [c], [], calls + [c], safe)
  {
    LastOfPlan(batches, calls, safe);
    hide IsPlan;
    AddBatch(batches, calls, Batch([c], false), safe);
  }

  method PlanToolBatches<T>(calls: seq<T>, safe: T -> bool, maxWorkers: int) returns (batches: seq<Batch<T>>)
    ensures IsPlan(batches, calls, Effective(safe, maxWorkers))
  {
    var ok := Effective(safe, maxWorkers);
    batches := [];
    var run: seq<T> := [];
    ghost var done: seq<T> := [];
    for i := 0 to |calls|
      invariant Progress(batches, done, run, calls[..i], ok)
    {
      hide IsPlan, AllSafe, Effective;
      assert calls[..i + 1] == calls[..i] + [calls[i]];
      if ok(calls[i]) {
        Extend(batches, done, run, calls[..i], calls[i], ok);
        run := run + [calls[i]];
      } else {
        if run != [] {
          Flush(batches, done, run, calls[..i], ok);
          batches := batches + [Batch(run, |run| > 1)];
          run := [];
        } else {
          assert done + run == done;
        }
        AddBarrier(batches, calls[..i], calls[i], ok);
        batches := batches + [Batch([calls[i]], false)];
        done := calls[..i + 1];
      }
    }
    assert calls[..|calls|] == calls;
    if run != [] {
      Flush(batches, done, run, calls, ok);
      batches := batches + [Batch(run, |run| > 1)];
    } else {
      assert done + run == done;
    }
  }

  // ---------- There is one plan ----------

  /** Two plans of the same calls end with the same batch. */
  lemma SameLastBatch<T>(a: seq<Batch<T>>, b: seq<Batch<T>>, calls: seq<T>, safe: T -> bool)
    requires IsPlan(a, calls, safe) && IsPlan(b, calls, safe) && a != [] && b != []
    ensures Last(a) == Last(b)
  {
    LastOfPlan(a, calls, safe);
    LastOfPlan(b, calls, safe);
    var m, n := |Last(a).calls|, |Last(b).calls|;
    if m < n {
      ShorterLastBatch(a, b, calls, safe);
    } else if n < m {
      ShorterLastBatch(b, a, calls, safe);
    }
  }

  lemma ShorterLastBatch<T>(a: seq<Batch<T>>, b: seq<Batch<T>>, calls: seq<T>, safe: T -> bool)
    requires IsPlan(a, calls, safe) && IsPlan(b, calls, safe) && a != [] && b != []
    ensures |Last(a).calls| >= |Last(b).calls|
  {
    LastOfPlan(a, calls, safe);
    LastOfPlan(b, calls, safe);
    var m, n := |Last(a).calls|, |Last(b).calls|;
    forall t | |calls| - n <= t < |calls| && n > 1 ensures safe(calls[t]) {
      assert calls[t] == Last(b).calls[t - (|calls| - n)];
      assert AllSafe(Last(b).calls, safe);
    }
    if |a| > 1 {
      FrontIsPlan(a, calls, safe);
      LastOfPlan(Front(a), calls[..|calls| - m], safe);
      assert Apart(a[|a| - 2], a[|a| - 1], safe);
      assert !(safe(calls[|calls| - m - 1]) && safe(calls[|calls| - m]));
    } else {
      assert Flatten(Front(a)) == [];
    }
  }

  lemma FrontIsPlan<T>(batches: seq<Batch<T>>, calls: seq<T>, safe: T -> bool)
    requires IsPlan(batches, calls, safe) && batches != []
    ensures |Last(batches).calls| <= |calls|
    ensures IsPlan(Front(batches), calls[..|calls| - |Last(batches).calls|], safe)
  {
    assert calls == Flatten(Front(batches)) + Last(batches).calls;
  }

  lemma {:induction false} PlanIsUnique<T>(a: seq<Batch<T>>, b: seq<Batch<T>>, calls: seq<T>, safe: T -> bool)
    requires IsPlan(a, calls, safe) && IsPlan(b, calls, safe)
    ensures a == b
    decreases |calls|
  {
    LastOfPlan(a, calls, safe);
    LastOfPlan(b, calls, safe);
    if calls == [] {
    } else {
      SameLastBatch(a, b, calls, safe);
      FrontIsPlan(a, calls, safe);
      FrontIsPlan(b, calls, safe);
      PlanIsUnique(Front(a), Front(b), calls[..|calls| - |Last(a).calls|], safe);
      assert a == Front(a) + [Last(a)] && b == Front(b) + [Last(b)];
    }
  }

  // ---------- Running a batch ----------

  ghost predicate IsOrder(order: seq<nat>, n: nat) {
    && (forall i :: 0 <= i < |order| ==> order[i] < n)
    && forall k :: 0 <= k < n ==> k in order
  }

  /** Overlapping calls finish in any order; the outcomes are collected in call order all the same. */
  method RunToolBatch<T, R>(batch: Batch<T>, execute: T -> R, maxWorkers: int, finishing: seq<nat>)
    returns (outcomes: seq<R>)
    requires IsOrder(finishing, |batch.calls|)
    ensures |outcomes| == |batch.calls| && forall i :: 0 <= i < |outcomes| ==> outcomes[i] == execute(batch.calls[i])
  {
    var n := |batch.calls|;
    outcomes := [];
    if !batch.concurrent || maxWorkers < 2 {
      for i := 0 to n
        invariant |outcomes| == i && forall k :: 0 <= k < i ==> outcomes[k] == execute(batch.calls[k])
      {
        outcomes := outcomes + [execute(batch.calls[i])];
      }
    } else {
      var slots := new Option<R>[n](_ => None);
      for j := 0 to |finishing|
        invariant forall k :: 0 <= k < n ==> (slots[k].Some? ==> slots[k].value == execute(batch.calls[k]))
        invariant forall i :: 0 <= i < j ==> slots[finishing[i]].Some?
      {
        slots[finishing[j]] := Some(execute(batch.calls[finishing[j]]));
      }
      forall k | 0 <= k < n ensures slots[k].Some? {
        assert k in finishing;
      }
      for i := 0 to n
        invariant |outcomes| == i && forall k :: 0 <= k < i ==> outcomes[k] == execute(batch.calls[k])
        invariant forall k :: 0 <= k < n ==> slots[k].Some? && slots[k].value == execute(batch.calls[k])
      {
        outcomes := outcomes + [slots[i].value];
      }
    }
  }
}
