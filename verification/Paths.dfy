/** Building runs step by step, for any kind of state and step. */
module Paths {
  import opened Wrappers

  /** From `s` the steps lead to `t`; `next` says where a step leads, if it is allowed at all. */
  ghost predicate Path<S(!new), L(!new)>(next: (S, L) -> Option<S>, s: S, t: S, steps: seq<L>)
    decreases |steps|
  {
    if steps == [] then s == t
    else next(s, steps[0]).Some? && Path(next, next(s, steps[0]).value, t, steps[1..])
  }

  /** The states on the way. */
  ghost function Visited<S(!new), L(!new)>(next: (S, L) -> Option<S>, s: S, t: S, steps: seq<L>): (states: seq<S>)
    requires Path(next, s, t, steps)
    ensures |states| == |steps| + 1 && states[0] == s && states[|steps|] == t
    ensures forall i {:trigger steps[i]} :: 0 <= i < |steps| ==> next(states[i], steps[i]) == Some(states[i + 1])
    decreases |steps|
  {
    if steps == [] then [s]
    else
      var rest := Visited(next, next(s, steps[0]).value, t, steps[1..]);
      assert forall i {:trigger steps[i]} :: 0 < i < |steps| ==> steps[1..][i - 1] == steps[i];
      [s] + rest
  }

  lemma {:induction false} Joined<S(!new), L(!new)>(next: (S, L) -> Option<S>, s: S, t: S, u: S, first: seq<L>,
      second: seq<L>)
    requires Path(next, s, t, first) && Path(next, t, u, second)
    ensures Path(next, s, u, first + second)
    decreases |first|
  {
    if first == [] {
      assert first + second == second;
    } else {
      assert (first + second)[1..] == first[1..] + second;
      Joined(next, next(s, first[0]).value, t, u, first[1..], second);
    }
  }

  lemma OneStep<S(!new), L(!new)>(next: (S, L) -> Option<S>, s: S, t: S, step: L)
    requires next(s, step) == Some(t)
    ensures Path(next, s, t, [step])
  {
    assert [step][1..] == [];
    assert Path(next, t, t, []);
  }

  lemma Longer<S(!new), L(!new)>(next: (S, L) -> Option<S>, s: S, t: S, u: S, steps: seq<L>, step: L)
    requires Path(next, s, t, steps) && next(t, step) == Some(u)
    ensures Path(next, s, u, steps + [step])
  {
    OneStep(next, t, u, step);
    Joined(next, s, t, u, steps, [step]);
  }

  lemma Nowhere<S(!new), L(!new)>(next: (S, L) -> Option<S>, s: S)
    ensures Path(next, s, s, [])
  {
  }

  /** The states before and after the point where two paths meet are those of the two paths. */
  lemma {:induction false} VisitedJoined<S(!new), L(!new)>(next: (S, L) -> Option<S>, s: S, t: S, u: S,
      first: seq<L>, second: seq<L>)
    requires Path(next, s, t, first) && Path(next, t, u, second)
    ensures Path(next, s, u, first + second)
    ensures Visited(next, s, u, first + second)[|first|] == t
    ensures Visited(next, s, u, first + second)[|first|..] == Visited(next, t, u, second)
    decreases |first|
  {
    Joined(next, s, t, u, first, second);
    if first == [] {
      assert first + second == second;
    } else {
      assert (first + second)[1..] == first[1..] + second;
      VisitedJoined(next, next(s, first[0]).value, t, u, first[1..], second);
    }
  }

  /** Allowing more steps keeps a path. */
  lemma {:induction false} Wider<S(!new), L(!new)>(next: (S, L) -> Option<S>, wide: (S, L) -> Option<S>, s: S, t: S,
      steps: seq<L>)
    requires Path(next, s, t, steps)
    requires forall x, l :: next(x, l).Some? ==> wide(x, l) == next(x, l)
    ensures Path(wide, s, t, steps) && Visited(wide, s, t, steps) == Visited(next, s, t, steps)
    decreases |steps|
  {
    if steps != [] {
      Wider(next, wide, next(s, steps[0]).value, t, steps[1..]);
    }
  }
}
