/**
 * Repeated calls of a stateful operation, seen from outside: the state left
 * after `n` calls and what each call produced, in order. The laws here know
 * nothing about the operation, so they hold for any step function.
 */
module Traces {

  datatype Trace<S, O> = Trace(last: S, outputs: seq<O>)

  /** `n` calls of `step` from `start`; the last call is the outermost. */
  function Iterate<S, O>(step: S -> (S, O), start: S, n: nat): (r: Trace<S, O>)
    ensures |r.outputs| == n
  {
    if n == 0 then Trace(start, [])
    else
      var before := Iterate(step, start, n - 1);
      var next := step(before.last);
      Trace(next.0, before.outputs + [next.1])
  }

  /** `n` copies of `x`. */
  function Repeat<T>(x: T, n: nat): (r: seq<T>)
    ensures |r| == n && forall i :: 0 <= i < n ==> r[i] == x
  {
    if n == 0 then [] else Repeat(x, n - 1) + [x]
  }

  /** `m + n` calls are `m` calls followed by `n` more from where they left off. */
  lemma {:induction false} IterateAppend<S, O>(step: S -> (S, O), start: S, m: nat, n: nat)
    ensures var a := Iterate(step, start, m);
            var b := Iterate(step, a.last, n);
            Iterate(step, start, m + n) == Trace(b.last, a.outputs + b.outputs)
    decreases n
  {
    var a := Iterate(step, start, m);
    if n == 0 {
      assert a.outputs + [] == a.outputs;
    } else {
      IterateAppend(step, start, m, n - 1);
      var b := Iterate(step, a.last, n - 1);
      assert a.outputs + b.outputs + [step(b.last).1] == a.outputs + (b.outputs + [step(b.last).1]);
    }
  }

  /** `IterateAppend` with both parts already known. */
  lemma IterateThen<S, O>(step: S -> (S, O), start: S, m: nat, n: nat, total: nat, first: Trace<S, O>, second: Trace<S, O>)
    requires total == m + n
    requires Iterate(step, start, m) == first
    requires Iterate(step, first.last, n) == second
    ensures Iterate(step, start, total) == Trace(second.last, first.outputs + second.outputs)
  {
    IterateAppend(step, start, m, n);
  }

  /** A state the step leaves unchanged is kept for good, and every later call produces the same output. */
  lemma {:induction false} FixedPointRepeats<S, O>(step: S -> (S, O), start: S, o: O, n: nat)
    requires step(start) == (start, o)
    ensures Iterate(step, start, n) == Trace(start, Repeat(o, n))
    decreases n
  {
    if n > 0 {
      FixedPointRepeats(step, start, o, n - 1);
    }
  }

  function Output<S, O>(step: S -> (S, O), s: S): O {
    step(s).1
  }

  /** Whatever every single call guarantees of its output, every output of a run satisfies. */
  lemma {:induction false} EveryOutput<S, O>(step: S -> (S, O), start: S, n: nat, good: O -> bool)
    requires forall s :: good(Output(step, s))
    ensures forall i :: 0 <= i < n ==> good(Iterate(step, start, n).outputs[i])
    decreases n
  {
    if n > 0 {
      EveryOutput(step, start, n - 1, good);
      var before := Iterate(step, start, n - 1);
      var all := Iterate(step, start, n).outputs;
      assert all == before.outputs + [step(before.last).1];
      forall i | 0 <= i < n
        ensures good(all[i])
      {
        if i < n - 1 {
          assert all[i] == before.outputs[i];
        } else {
          assert all[i] == Output(step, before.last);
        }
      }
    }
  }

  /**
   * A run that passes through known states: if each call from `states[k]`
   * leads to `states[k + 1]` and produces `outs[k]`, then the run from
   * `states[0]` produces `outs` and ends in the last state.
   */
  lemma {:induction false} FollowsPath<S, O>(step: S -> (S, O), start: S, n: nat, states: seq<S>, outs: seq<O>)
    requires |states| == n + 1 && |outs| == n && states[0] == start
    requires forall k :: 0 <= k < n ==> step(states[k]) == (states[k + 1], outs[k])
    ensures Iterate(step, start, n) == Trace(states[n], outs)
    decreases n
  {
    if n > 0 {
      FollowsPath(step, start, n - 1, states[..n], outs[..n - 1]);
      assert outs[..n - 1] + [outs[n - 1]] == outs;
    }
  }
}
