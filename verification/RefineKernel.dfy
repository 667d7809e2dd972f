/**
 The numerical kernel of `vrs_refine.py`: shuffled passes over a region's edges, each followed by a strength update.
 */
module RefineKernel {
  import opened Sums

  const REINFORCE: real := 1.01
  const WEAKEN: real := 0.995

  /** A subgraph with its own node numbering. */
  datatype Sub = Sub(direct: seq<real>, unresolved: seq<bool>, src: seq<nat>, dst: seq<nat>, sign: seq<int>,
      base: seq<real>)
  {
    predicate Valid() {
      && |unresolved| == |direct| && |src| == |dst| == |sign| == |base|
      && forall i :: 0 <= i < |src| ==> src[i] < |direct| && dst[i] < |direct|
    }
  }

  /** `shuffle(c)` is the edge order of cycle `c`. */
  datatype Plan = Plan(cycles: nat, passes: nat, batch: nat, tanh: real -> real, shuffle: nat -> seq<nat>)

  // ----- one batch -----

  function MassTerm(sub: Sub, strength: seq<real>, t: nat): int -> real {
    i => if 0 <= i < |sub.dst| && i < |strength| && sub.dst[i] == t then Abs(strength[i]) else 0.0
  }

  function Degree(sub: Sub, strength: seq<real>, t: nat): (d: real)
    ensures d >= 1.0
  {
    var mass := Sum(0, |strength|, MassTerm(sub, strength, t));
    if mass > 1.0 then mass else 1.0
  }

  function Pull(sub: Sub, state: seq<real>, strength: seq<real>, i: int): real {
    if 0 <= i < |sub.src| && i < |sub.sign| && i < |strength| && sub.src[i] < |state| then
      state[sub.src[i]] * (sub.sign[i] as real * strength[i])
    else 0.0
  }

  function PullTerm(sub: Sub, state: seq<real>, strength: seq<real>, batch: seq<nat>, t: nat): int -> real {
    k => if 0 <= k < |batch| && batch[k] < |sub.dst| && sub.dst[batch[k]] == t
      then Pull(sub, state, strength, batch[k]) else 0.0
  }

  predicate Touched(sub: Sub, batch: seq<nat>, t: nat) {
    exists k :: 0 <= k < |batch| && batch[k] < |sub.dst| && sub.dst[batch[k]] == t
  }

  /** The new state of one node: moved towards its own evidence and the batch's pull. */
  function Moved(sub: Sub, tanh: real -> real, state: seq<real>, strength: seq<real>, degrees: seq<real>,
      batch: seq<nat>, t: nat): real
    requires t < |state| && |sub.direct| == |state| == |degrees| && degrees[t] >= 1.0
  {
    if Touched(sub, batch, t) then
      0.8 * state[t]
      + 0.2 * tanh(sub.direct[t] + 0.2 * Sum(0, |batch|, PullTerm(sub, state, strength, batch, t)) / degrees[t])
    else state[t]
  }

  function AfterBatch(sub: Sub, tanh: real -> real, state: seq<real>, strength: seq<real>,
      batch: seq<nat>): (after: seq<real>)
    requires |sub.direct| == |state|
    ensures |after| == |state|
  {
    var degrees := seq(|state|, t requires 0 <= t < |state| => Degree(sub, strength, t));
    seq(|state|, t requires 0 <= t < |state| => Moved(sub, tanh, state, strength, degrees, batch, t))
  }

  function BatchAt(order: seq<nat>, start: nat, size: nat): seq<nat>
    requires start <= |order|
  {
    order[start..if start + size < |order| then start + size else |order|]
  }

  /** The batches of one pass, from `start` on. */
  function AfterPass(sub: Sub, plan: Plan, state: seq<real>, strength: seq<real>, order: seq<nat>,
      start: nat): (after: seq<real>)
    requires |sub.direct| == |state| && plan.batch >= 1
    ensures |after| == |state|
    decreases |order| - start
  {
    if start >= |order| then state
    else AfterPass(sub, plan, AfterBatch(sub, plan.tanh, state, strength, BatchAt(order, start, plan.batch)), strength,
           order,
                   start + plan.batch)
  }

  function AfterPasses(sub: Sub, plan: Plan, state: seq<real>, strength: seq<real>, order: seq<nat>,
      passes: nat): (after: seq<real>)
    requires |sub.direct| == |state| && plan.batch >= 1
    ensures |after| == |state|
  {
    if passes == 0 then state
    else AfterPass(sub, plan, AfterPasses(sub, plan, state, strength, order, passes - 1), strength, order, 0)
  }

  // ----- the strength update -----

  function Min(x: real, y: real): real { if x < y then x else y }
  function Max(x: real, y: real): real { if x < y then y else x }

  /** `np.minimum(np.maximum(x, base * .25), base * 4)` — in either order, as the bounds are ordered. */
  function Clamp(x: real, base: real): real { Max(Min(x, base * 4.0), base * 0.25) }

  /** Compatible and informed endpoints, neither unresolved. */
  predicate Stable(sub: Sub, state: seq<real>, i: nat)
    requires sub.Valid() && |state| == |sub.direct| && i < |sub.src|
  {
    var s, d := state[sub.src[i]], state[sub.dst[i]];
    && 1.0 - 0.5 * Abs(s * sub.sign[i] as real - d) >= 0.75
    && Abs(s) + Abs(d) >= 0.1
    && !sub.unresolved[sub.src[i]] && !sub.unresolved[sub.dst[i]]
  }

  function Updated(sub: Sub, state: seq<real>, strength: seq<real>): (after: seq<real>)
    requires sub.Valid() && |state| == |sub.direct| && |strength| == |sub.src|
    ensures |after| == |strength|
  {
    seq(|strength|, i requires 0 <= i < |strength| =>
      Clamp(strength[i] * (if Stable(sub, state, i) then REINFORCE else WEAKEN), sub.base[i]))
  }

  /** States, strengths and the running sum of states. */
  datatype Run = Run(state: seq<real>, strength: seq<real>, consensus: seq<real>)

  function Plus(x: seq<real>, y: seq<real>): (z: seq<real>)
    requires |x| == |y|
    ensures |z| == |x|
  {
    seq(|x|, i requires 0 <= i < |x| => x[i] + y[i])
  }

  function AfterCycles(sub: Sub, plan: Plan, state: seq<real>, strength: seq<real>, cycles: nat): (run: Run)
    requires sub.Valid() && |state| == |sub.direct| && |strength| == |sub.src| && plan.batch >= 1
    ensures |run.state| == |run.consensus| == |state| && |run.strength| == |strength|
  {
    if cycles == 0 then Run(state, strength, seq(|state|, _ => 0.0))
    else
      var before := AfterCycles(sub, plan, state, strength, cycles - 1);
      var moved := AfterPasses(sub, plan, before.state, before.strength, plan.shuffle(cycles - 1), plan.passes);
      Run(moved, Updated(sub, moved, before.strength), Plus(before.consensus, moved))
  }

  datatype Refined = Refined(mean: seq<real>, strength: seq<real>)

  /** What `refine` computes from a subgraph. */
  function Refinement(sub: Sub, plan: Plan, state: seq<real>, strength: seq<real>): (r: Refined)
    requires sub.Valid() && |state| == |sub.direct| && |strength| == |sub.src| && plan.batch >= 1 && plan.cycles >= 1
    ensures |r.mean| == |state| && |r.strength| == |strength|
  {
    var run := AfterCycles(sub, plan, state, strength, plan.cycles);
    Refined(seq(|state|, t requires 0 <= t < |state| => run.consensus[t] / plan.cycles as real), run.strength)
  }

  /**
   `refine`: nodes that no edge leads to come out as they went in, states stay among the values of the squashing
   function, and strengths end inside the clamp of their base.
   */
  method Refine(sub: Sub, plan: Plan, state0: seq<real>, strength0: seq<real>) returns (result: Refined)
    requires sub.Valid() && |state0| == |sub.direct| && |strength0| == |sub.src| && plan.batch >= 1 && plan.cycles >= 1
    ensures result == Refinement(sub, plan, state0, strength0)
    ensures forall t :: 0 <= t < |state0| && t !in sub.dst ==> result.mean[t] == state0[t]
    ensures Squashes(plan.tanh) && InUnit(state0) ==> InUnit(result.mean)
    ensures (forall i :: 0 <= i < |sub.base| ==> sub.base[i] >= 0.0) ==> InClamp(result.strength, sub.base)
  {
    hide AfterBatch, Updated, Plus, InUnit, Squashes, InClamp;
    var state, strength := state0, strength0;
    var consensus := seq(|state0|, _ => 0.0);
    for cycle := 0 to plan.cycles
      invariant |state| == |state0| && |strength| == |strength0| && |consensus| == |state0|
      invariant Run(state, strength, consensus) == AfterCycles(sub, plan, state0, strength0, cycle)
    {
      var order := plan.shuffle(cycle);
      ghost var before := state;
      for pass := 0 to plan.passes
        invariant |state| == |state0| && state == AfterPasses(sub, plan, before, strength, order, pass)
      {
        ghost var entering := state;
        var start := 0;
        while start < |order|
          invariant |state| == |state0|
          invariant AfterPass(sub, plan, entering, strength, order, 0)
                    == AfterPass(sub, plan, state, strength, order, start)
          decreases |order| - start
        {
          state := AfterBatch(sub, plan.tanh, state, strength, BatchAt(order, start, plan.batch));
          start := start + plan.batch;
        }
      }
      strength := Updated(sub, state, strength);
      consensus := Plus(consensus, state);
    }
    result := Refined(seq(|state0|, t requires 0 <= t < |state0| => consensus[t] / plan.cycles as real), strength);
    RefinedMeans(sub, plan, state0, strength0);
  }

  lemma RefinedMeans(sub: Sub, plan: Plan, state: seq<real>, strength: seq<real>)
    requires sub.Valid() && |state| == |sub.direct| && |strength| == |sub.src| && plan.batch >= 1 && plan.cycles >= 1
    ensures var result := Refinement(sub, plan, state, strength);
            && (forall t :: 0 <= t < |state| && t !in sub.dst ==> result.mean[t] == state[t])
            && (Squashes(plan.tanh) && InUnit(state) ==> InUnit(result.mean))
            && ((forall i :: 0 <= i < |sub.base| ==> sub.base[i] >= 0.0) ==> InClamp(result.strength, sub.base))
  {
    hide Refinement, InUnit, InClamp, Squashes;
    forall t | 0 <= t < |state| && t !in sub.dst ensures Refinement(sub, plan, state, strength).mean[t] == state[t] {
      SourceKeepsState(sub, plan, state, strength, t);
    }
    if Squashes(plan.tanh) && InUnit(state) { StatesInUnit(sub, plan, state, strength); }
    if forall i :: 0 <= i < |sub.base| ==> sub.base[i] >= 0.0 { RefinedInClamp(sub, plan, state, strength); }
  }

  // ----- what the passes can and cannot do to the states -----

  lemma {:induction false} PassKeeps(sub: Sub, plan: Plan, state: seq<real>, strength: seq<real>, order: seq<nat>,
      start: nat, t: nat)
    requires |sub.direct| == |state| && plan.batch >= 1 && t < |state| && t !in sub.dst
    ensures AfterPass(sub, plan, state, strength, order, start)[t] == state[t]
    decreases |order| - start
  {
    hide Degree, PullTerm;
    if start < |order| {
      PassKeeps(sub, plan, AfterBatch(sub, plan.tanh, state, strength, BatchAt(order, start, plan.batch)), strength,
        order,
                start + plan.batch, t);
    }
  }

  lemma {:induction false} PassesKeep(sub: Sub, plan: Plan, state: seq<real>, strength: seq<real>, order: seq<nat>,
      passes: nat, t: nat)
    requires |sub.direct| == |state| && plan.batch >= 1 && t < |state| && t !in sub.dst
    ensures AfterPasses(sub, plan, state, strength, order, passes)[t] == state[t]
  {
    hide AfterPass;
    if passes > 0 {
      PassesKeep(sub, plan, state, strength, order, passes - 1, t);
      PassKeeps(sub, plan, AfterPasses(sub, plan, state, strength, order, passes - 1), strength, order, 0, t);
    }
  }

  lemma {:induction false} CyclesKeep(sub: Sub, plan: Plan, state: seq<real>, strength: seq<real>, cycles: nat, t: nat)
    requires sub.Valid() && |state| == |sub.direct| && |strength| == |sub.src| && plan.batch >= 1 && t < |state|
             && t !in sub.dst
    ensures var run := AfterCycles(sub, plan, state, strength, cycles);
            run.state[t] == state[t] && run.consensus[t] == cycles as real * state[t]
  {
    hide AfterPasses, Updated;
    if cycles > 0 {
      CyclesKeep(sub, plan, state, strength, cycles - 1, t);
      var before := AfterCycles(sub, plan, state, strength, cycles - 1);
      PassesKeep(sub, plan, before.state, before.strength, plan.shuffle(cycles - 1), plan.passes, t);
      OneMoreTimes(cycles - 1, state[t]);
    }
  }

  lemma OneMoreTimes(n: nat, x: real)
    ensures n as real * x + x == (n + 1) as real * x
  {
    assert (n + 1) as real == n as real + 1.0;
  }

  lemma TimesOver(n: nat, x: real)
    requires n > 0
    ensures (n as real * x) / n as real == x
  {
  }

  /** A node that no edge leads to has the state it came with, in every cycle and in the mean. */
  lemma SourceKeepsState(sub: Sub, plan: Plan, state: seq<real>, strength: seq<real>, t: nat)
    requires sub.Valid() && |state| == |sub.direct| && |strength| == |sub.src| && plan.batch >= 1 && plan.cycles >= 1
    requires t < |state| && t !in sub.dst
    ensures Refinement(sub, plan, state, strength).mean[t] == state[t]
  {
    hide AfterCycles;
    CyclesKeep(sub, plan, state, strength, plan.cycles, t);
    TimesOver(plan.cycles, state[t]);
  }

  ghost predicate Squashes(tanh: real -> real) { forall x :: -1.0 <= tanh(x) <= 1.0 }

  ghost predicate InUnit(state: seq<real>) { forall t :: 0 <= t < |state| ==> -1.0 <= state[t] <= 1.0 }

  lemma BatchInUnit(sub: Sub, tanh: real -> real, state: seq<real>, strength: seq<real>, batch: seq<nat>)
    requires |sub.direct| == |state| && Squashes(tanh) && InUnit(state)
    ensures InUnit(AfterBatch(sub, tanh, state, strength, batch))
  {
    hide Touched, PullTerm, Sum, Degree;
  }

  lemma {:induction false} PassInUnit(sub: Sub, plan: Plan, state: seq<real>, strength: seq<real>, order: seq<nat>,
      start: nat)
    requires |sub.direct| == |state| && plan.batch >= 1 && Squashes(plan.tanh) && InUnit(state)
    ensures InUnit(AfterPass(sub, plan, state, strength, order, start))
    decreases |order| - start
  {
    hide AfterBatch, InUnit, Squashes;
    if start < |order| {
      BatchInUnit(sub, plan.tanh, state, strength, BatchAt(order, start, plan.batch));
      PassInUnit(sub, plan, AfterBatch(sub, plan.tanh, state, strength, BatchAt(order, start, plan.batch)), strength,
        order,
                 start + plan.batch);
    }
  }

  lemma {:induction false} PassesInUnit(sub: Sub, plan: Plan, state: seq<real>, strength: seq<real>, order: seq<nat>,
      passes: nat)
    requires |sub.direct| == |state| && plan.batch >= 1 && Squashes(plan.tanh) && InUnit(state)
    ensures InUnit(AfterPasses(sub, plan, state, strength, order, passes))
  {
    hide AfterPass, InUnit, Squashes;
    if passes > 0 {
      PassesInUnit(sub, plan, state, strength, order, passes - 1);
      PassInUnit(sub, plan, AfterPasses(sub, plan, state, strength, order, passes - 1), strength, order, 0);
    }
  }

  ghost predicate InRange(x: seq<real>, n: nat) { forall t :: 0 <= t < |x| ==> -(n as real) <= x[t] <= n as real }

  lemma {:induction false} CyclesInUnit(sub: Sub, plan: Plan, state: seq<real>, strength: seq<real>, cycles: nat)
    requires sub.Valid() && |state| == |sub.direct| && |strength| == |sub.src| && plan.batch >= 1
    requires Squashes(plan.tanh) && InUnit(state)
    ensures var run := AfterCycles(sub, plan, state, strength, cycles);
            InUnit(run.state) && InRange(run.consensus, cycles)
  {
    hide AfterPasses, Updated, Squashes;
    if cycles > 0 {
      CyclesInUnit(sub, plan, state, strength, cycles - 1);
      var before := AfterCycles(sub, plan, state, strength, cycles - 1);
      PassesInUnit(sub, plan, before.state, before.strength, plan.shuffle(cycles - 1), plan.passes);
    }
  }

  lemma ShareInUnit(x: real, n: nat)
    requires n > 0 && -(n as real) <= x <= n as real
    ensures -1.0 <= x / n as real <= 1.0
  {
  }

  /** States that start in [-1, 1] stay there, and so does their mean. */
  lemma StatesInUnit(sub: Sub, plan: Plan, state: seq<real>, strength: seq<real>)
    requires sub.Valid() && |state| == |sub.direct| && |strength| == |sub.src| && plan.batch >= 1 && plan.cycles >= 1
    requires Squashes(plan.tanh) && InUnit(state)
    ensures InUnit(Refinement(sub, plan, state, strength).mean)
  {
    hide AfterCycles, Squashes;
    CyclesInUnit(sub, plan, state, strength, plan.cycles);
    var run := AfterCycles(sub, plan, state, strength, plan.cycles);
    forall t | 0 <= t < |state| ensures -1.0 <= run.consensus[t] / plan.cycles as real <= 1.0 {
      ShareInUnit(run.consensus[t], plan.cycles);
    }
  }

  // ----- what the strength update can and cannot do -----

  ghost predicate InClamp(strength: seq<real>, base: seq<real>) {
    |strength| == |base| && forall i :: 0 <= i < |strength| ==> base[i] * 0.25 <= strength[i] <= base[i] * 4.0
  }

  lemma ClampInside(x: real, base: real)
    requires base >= 0.0
    ensures base * 0.25 <= Clamp(x, base) <= base * 4.0
  {
  }

  /** Whatever the states, each strength ends between a quarter and four times its base. */
  lemma RefinedInClamp(sub: Sub, plan: Plan, state: seq<real>, strength: seq<real>)
    requires sub.Valid() && |state| == |sub.direct| && |strength| == |sub.src| && plan.batch >= 1 && plan.cycles >= 1
    requires forall i :: 0 <= i < |sub.base| ==> sub.base[i] >= 0.0
    ensures InClamp(Refinement(sub, plan, state, strength).strength, sub.base)
  {
    hide AfterPasses, Clamp;
    var before := AfterCycles(sub, plan, state, strength, plan.cycles - 1);
    forall i | 0 <= i < |sub.base|
      ensures forall x :: sub.base[i] * 0.25 <= Clamp(x, sub.base[i]) <= sub.base[i] * 4.0
    {
      forall x ensures sub.base[i] * 0.25 <= Clamp(x, sub.base[i]) <= sub.base[i] * 4.0 { ClampInside(x, sub.base[i]); }
    }
  }

  function Decayed(x: real, cycles: nat): real { if cycles == 0 then x else Decayed(x, cycles - 1) * WEAKEN }

  lemma ClampDecays(x: real, base: real, decayed: real)
    requires base >= 0.0 && x == Max(base * 0.25, decayed) <= base * 4.0
    ensures Clamp(x * WEAKEN, base) == Max(base * 0.25, decayed * WEAKEN) <= base * 4.0
  {
  }

  /** An unresolved endpoint blocks reinforcement: such an edge decays geometrically down to its floor. */
  lemma {:induction false} UnresolvedDecays(sub: Sub, plan: Plan, state: seq<real>, strength: seq<real>, cycles: nat,
      i: nat)
    requires sub.Valid() && |state| == |sub.direct| && |strength| == |sub.src| && plan.batch >= 1 && i < |sub.src|
    requires sub.base[i] >= 0.0 && sub.base[i] * 0.25 <= strength[i] <= sub.base[i] * 4.0
    requires sub.unresolved[sub.src[i]] || sub.unresolved[sub.dst[i]]
    ensures AfterCycles(sub, plan, state, strength, cycles).strength[i]
         == Max(sub.base[i] * 0.25, Decayed(strength[i], cycles)) <= sub.base[i] * 4.0
  {
    hide AfterPasses, Clamp;
    if cycles > 0 {
      UnresolvedDecays(sub, plan, state, strength, cycles - 1, i);
      var before := AfterCycles(sub, plan, state, strength, cycles - 1);
      ClampDecays(before.strength[i], sub.base[i], Decayed(strength[i], cycles - 1));
    }
  }
}
