/**
  Runs of a machine given by its step function: actions taken one after the other.
 */
module Runs {
  function Run<S, A>(step: (S, A) -> S, s: S, acts: seq<A>): S {
    if acts == [] then s else step(Run(step, s, acts[..|acts| - 1]), acts[|acts| - 1])
  }

  // Every action of the run is taken where `ok` allows it.
  ghost predicate Along<S, A>(step: (S, A) -> S, ok: (S, A) -> bool, s: S, acts: seq<A>) {
    forall k :: 0 <= k < |acts| ==> ok(Run(step, s, acts[..k]), acts[k])
  }

  lemma RunOne<S, A>(step: (S, A) -> S, s: S, a: A)
    ensures Run(step, s, [a]) == step(s, a)
  {
    assert [a][..0] == [];
  }

  lemma RunAppend<S, A>(step: (S, A) -> S, s: S, acts: seq<A>, a: A)
    ensures Run(step, s, acts + [a]) == step(Run(step, s, acts), a)
  {
    assert (acts + [a])[..|acts|] == acts;
  }

  lemma {:induction false} RunConcat<S, A>(step: (S, A) -> S, s: S, a: seq<A>, b: seq<A>)
    ensures Run(step, s, a + b) == Run(step, Run(step, s, a), b)
    decreases |b|
  {
    if b == [] {
      assert a + b == a;
    } else {
      var n := |b| - 1;
      RunConcat(step, s, a, b[..n]);
      RunAppend(step, s, a + b[..n], b[n]);
      assert a + b == a + b[..n] + [b[n]];
    }
  }

  lemma AlongLast<S, A>(step: (S, A) -> S, ok: (S, A) -> bool, s: S, acts: seq<A>)
    requires Along(step, ok, s, acts) && acts != []
    ensures Along(step, ok, s, acts[..|acts| - 1])
    ensures ok(Run(step, s, acts[..|acts| - 1]), acts[|acts| - 1])
  {
    var b := acts[..|acts| - 1];
    forall k | 0 <= k < |b|
      ensures ok(Run(step, s, b[..k]), b[k])
    {
      assert b[..k] == acts[..k];
    }
  }

  lemma AlongConcat<S, A>(step: (S, A) -> S, ok: (S, A) -> bool, s: S, a: seq<A>, b: seq<A>)
    requires Along(step, ok, s, a) && Along(step, ok, Run(step, s, a), b)
    ensures Along(step, ok, s, a + b)
  {
    forall k | 0 <= k < |a + b|
      ensures ok(Run(step, s, (a + b)[..k]), (a + b)[k])
    {
      if k < |a| {
        assert (a + b)[..k] == a[..k];
      } else {
        assert (a + b)[..k] == a + b[..k - |a|];
        RunConcat(step, s, a, b[..k - |a|]);
      }
    }
  }

  lemma AlongFirst<S, A>(step: (S, A) -> S, ok: (S, A) -> bool, s: S, a: A, rest: seq<A>)
    requires ok(s, a) && Along(step, ok, step(s, a), rest)
    ensures Along(step, ok, s, [a] + rest)
  {
    RunOne(step, s, a);
    assert Along(step, ok, s, [a]) by {
      assert [a][..0] == [];
    }
    AlongConcat(step, ok, s, [a], rest);
  }

  lemma {:induction false} AlongKeeps<S(!new), A(!new)>(
    step: (S, A) -> S, ok: (S, A) -> bool, inv: S -> bool, s: S, acts: seq<A>)
    requires Along(step, ok, s, acts) && inv(s) && forall t, a :: inv(t) && ok(t, a) ==> inv(step(t, a))
    ensures inv(Run(step, s, acts))
    decreases |acts|
  {
    if acts == [] {
    } else {
      AlongLast(step, ok, s, acts);
      AlongKeeps(step, ok, inv, s, acts[..|acts| - 1]);
    }
  }

  // A run that keeps `inv` while its states are `good`: it is `kept` to its end or to a state that is not.
  lemma {:induction false} Until<S(!new), A(!new)>(
    step: (S, A) -> S, ok: (S, A) -> bool, kept: (S, A) -> bool, inv: S -> bool, good: S -> bool, s: S, run: seq<A>)
    returns (acts: seq<A>)
    requires Along(step, ok, s, run) && inv(s)
    requires forall t, a :: inv(t) && good(t) && ok(t, a) ==> kept(t, a) && inv(step(t, a))
    ensures acts <= run && Along(step, kept, s, acts)
    ensures !good(Run(step, s, acts)) || (acts == run && inv(Run(step, s, run)))
    decreases |run|
  {
    acts := [];
    if run != [] {
      var b, a := run[..|run| - 1], run[|run| - 1];
      AlongLast(step, ok, s, run);
      acts := Until(step, ok, kept, inv, good, s, b);
      if good(Run(step, s, acts)) {
        AlongFirst(step, kept, Run(step, s, b), a, []);
        assert [a] + [] == [a] && run == b + [a];
        AlongConcat(step, kept, s, b, [a]);
        acts := run;
      }
    }
  }

  // The state after n actions of an infinite schedule.
  function After<S, A>(step: (S, A) -> S, s: S, sched: nat -> A, n: nat): S {
    if n == 0 then s else step(After(step, s, sched, n - 1), sched(n - 1))
  }

  lemma AfterNext<S, A>(step: (S, A) -> S, s: S, sched: nat -> A, n: nat)
    ensures After(step, s, sched, n + 1) == step(After(step, s, sched, n), sched(n))
  {
  }

  // Action n of the schedule is taken where `ok` allows it.
  predicate Obeys<S, A>(step: (S, A) -> S, ok: (S, A) -> bool, s: S, sched: nat -> A, n: nat) {
    ok(After(step, s, sched, n), sched(n))
  }

  lemma {:induction false} AfterKeeps<S(!new), A(!new)>(
    step: (S, A) -> S, ok: (S, A) -> bool, inv: S -> bool, s: S, sched: nat -> A, m: nat, n: nat)
    requires m <= n && inv(After(step, s, sched, m)) && forall t, a :: inv(t) && ok(t, a) ==> inv(step(t, a))
    requires forall k: nat :: Obeys(step, ok, s, sched, k)
    ensures inv(After(step, s, sched, n))
    decreases n - m
  {
    if m < n {
      AfterKeeps(step, ok, inv, s, sched, m, n - 1);
      AfterNext(step, s, sched, n - 1);
      assert Obeys(step, ok, s, sched, n - 1);
    }
  }

  lemma {:induction false} AfterIsRun<S, A>(step: (S, A) -> S, s: S, sched: nat -> A, acts: seq<A>, n: nat)
    requires n <= |acts| && forall k :: 0 <= k < n ==> sched(k) == acts[k]
    ensures After(step, s, sched, n) == Run(step, s, acts[..n])
    decreases n
  {
    if n == 0 {
    } else {
      AfterIsRun(step, s, sched, acts, n - 1);
      assert acts[..n][..n - 1] == acts[..n - 1];
    }
  }

  // ---------- waiting for a helpful action ----------

  // `fell(u, t)` is progress from t to u, `stays(u, t)` is neither progress nor harm.
  ghost predicate Waits<S(!new), A(!new)>(
    step: (S, A) -> S, live: S -> bool, fell: (S, S) -> bool, stays: (S, S) -> bool, helps: (S, A) -> bool,
      may: A -> bool)
  {
    && (forall t, a :: live(t) && may(a) ==>
          fell(step(t, a), t) || (live(step(t, a)) && stays(step(t, a), t) && !helps(t, a)))
    && (forall u, t, a :: stays(u, t) && helps(t, a) ==> helps(u, a))
    && (forall v, u, t :: fell(v, u) && stays(u, t) ==> fell(v, t))
  }

  // Once a helpful action comes, there has been progress.
  lemma {:induction false} Wait<S(!new), A(!new)>(
    step: (S, A) -> S, live: S -> bool, fell: (S, S) -> bool, stays: (S, S) -> bool, helps: (S, A) -> bool,
      may: A -> bool,
    s: S, sched: nat -> A, n: nat, m: nat)
    returns (k: nat)
    requires Waits(step, live, fell, stays, helps, may) && forall i :: may(sched(i))
    requires n <= m && live(After(step, s, sched, n)) && helps(After(step, s, sched, n), sched(m))
    ensures fell(After(step, s, sched, k), After(step, s, sched, n))
    decreases m - n
  {
    var t := After(step, s, sched, n);
    AfterNext(step, s, sched, n);
    k := n + 1;
    if !fell(After(step, s, sched, n + 1), t) {
      assert may(sched(n));
      k := Wait(step, live, fell, stays, helps, may, s, sched, n + 1, m);
    }
  }
}
