/**
 The region phases of `vrs_refine.py::consolidate`: every region is refined from the same frozen inputs, by
 any number of workers, and the results are committed afterwards.
 */
module Consolidation {
  import opened RefineKernel

  const TOLERANCE: real := 0.001

  /** The kernel inputs of one generation; `labels` are the fine regions of the nodes. */
  datatype Inputs = Inputs(direct: seq<real>, unresolved: seq<bool>, labels: seq<int>, src: seq<nat>, dst: seq<nat>,
      sign: seq<int>, base: seq<real>)
  {
    predicate Valid() {
      && |direct| == |unresolved| == |labels| && |src| == |dst| == |sign| == |base|
      && forall i :: 0 <= i < |src| ==> src[i] < |direct| && dst[i] < |direct|
    }
  }

  /** A region, or the connector pass over the edges that leave it. */
  datatype Key = Key(region: int, connector: bool)

  /** What a phase works on: strengths per edge, states per node, and the last move of every key. */
  datatype World = World(strength: seq<real>, state: seq<real>, delta: map<Key, real>)

  ghost predicate Fits(inp: Inputs, w: World) { inp.Valid() && |w.strength| == |inp.src| && |w.state| == |inp.direct| }

  // ----- the subgraph of a key -----

  predicate Owns(inp: Inputs, key: Key, i: nat)
    requires inp.Valid() && i < |inp.src|
  {
    inp.labels[inp.src[i]] == key.region && (inp.labels[inp.src[i]] == inp.labels[inp.dst[i]]) == !key.connector
  }

  /** `np.flatnonzero(mask)`, below `k`. */
  function EdgesOf(inp: Inputs, key: Key, k: nat): (edges: seq<nat>)
    requires inp.Valid() && k <= |inp.src|
    ensures forall j :: 0 <= j < |edges| ==> edges[j] < k && Owns(inp, key, edges[j])
  {
    if k == 0 then [] else EdgesOf(inp, key, k - 1) + (if Owns(inp, key, k - 1) then [k - 1] else [])
  }

  predicate Touches(inp: Inputs, edges: seq<nat>, n: nat) {
    exists j :: 0 <= j < |edges| && edges[j] < |inp.src| && edges[j] < |inp.dst|
      && (inp.src[edges[j]] == n || inp.dst[edges[j]] == n)
  }

  /** `np.unique` of the endpoints. */
  function NodesOf(inp: Inputs, edges: seq<nat>, n: nat): (nodes: seq<nat>)
    ensures forall j :: 0 <= j < |nodes| ==> nodes[j] < n && Touches(inp, edges, nodes[j])
  {
    if n == 0 then [] else NodesOf(inp, edges, n - 1) + (if Touches(inp, edges, n - 1) then [n - 1] else [])
  }

  /** Position of `n` in a list, its length when absent. */
  function Position(nodes: seq<nat>, n: nat): (k: nat)
    ensures k <= |nodes| && (k < |nodes| ==> nodes[k] == n) && (n in nodes ==> k < |nodes|)
  {
    if nodes == [] then 0 else if nodes[0] == n then 0 else 1 + Position(nodes[1..], n)
  }

  function Pick<T>(s: seq<T>, at: seq<nat>): (r: seq<T>)
    requires forall j :: 0 <= j < |at| ==> at[j] < |s|
    ensures |r| == |at| && forall j :: 0 <= j < |at| ==> r[j] == s[at[j]]
  {
    seq(|at|, j requires 0 <= j < |at| => s[at[j]])
  }

  lemma {:induction false} NodesComplete(inp: Inputs, edges: seq<nat>, n: nat, v: nat)
    requires v < n && Touches(inp, edges, v)
    ensures v in NodesOf(inp, edges, n)
  {
    if v < n - 1 { NodesComplete(inp, edges, n - 1, v); }
  }

  lemma {:induction false} EdgesComplete(inp: Inputs, key: Key, k: nat, i: nat)
    requires inp.Valid() && i < k <= |inp.src| && Owns(inp, key, i)
    ensures i in EdgesOf(inp, key, k)
  {
    if i < k - 1 { EdgesComplete(inp, key, k - 1, i); }
  }

  /** Endpoints renumbered within the subgraph. */
  function Local(nodes: seq<nat>, ends: seq<nat>): (r: seq<nat>)
    ensures |r| == |ends|
  {
    seq(|ends|, j requires 0 <= j < |ends| => Position(nodes, ends[j]))
  }

  function SubOf(inp: Inputs, key: Key): (sub: Sub)
    requires inp.Valid()
    ensures sub.Valid()
  {
    var edges := EdgesOf(inp, key, |inp.src|);
    var nodes := NodesOf(inp, edges, |inp.direct|);
    var sub := Sub(Pick(inp.direct, nodes), Pick(inp.unresolved, nodes), Local(nodes, Pick(inp.src, edges)),
                   Local(nodes, Pick(inp.dst, edges)), Pick(inp.sign, edges), Pick(inp.base, edges));
    assert sub.Valid() by { SubIsValid(inp, edges, nodes); }
    sub
  }

  lemma SubIsValid(inp: Inputs, edges: seq<nat>, nodes: seq<nat>)
    requires inp.Valid() && nodes == NodesOf(inp, edges, |inp.direct|)
             && forall j :: 0 <= j < |edges| ==> edges[j] < |inp.src|
    ensures forall j :: 0 <= j < |edges| ==>
              Position(nodes, inp.src[edges[j]]) < |nodes| && Position(nodes, inp.dst[edges[j]]) < |nodes|
  {
    forall j | 0 <= j < |edges| ensures inp.src[edges[j]] in nodes && inp.dst[edges[j]] in nodes {
      NodesComplete(inp, edges, |inp.direct|, inp.src[edges[j]]);
      NodesComplete(inp, edges, |inp.direct|, inp.dst[edges[j]]);
    }
  }

  // ----- compute -----

  /** `plan(key)`: cycles and the shuffle seeded for that key. */
  type Plans = Key -> Plan

  ghost predicate Runnable(plans: Plans) { forall key :: plans(key).batch >= 1 && plans(key).cycles >= 1 }

  datatype Computed = Skipped(delta: real) | Nothing | Result(refined: Refined, before: seq<real>)

  predicate AnyFresh(touched: seq<bool>, edges: seq<nat>) {
    exists j :: 0 <= j < |edges| && edges[j] < |touched| && touched[edges[j]]
  }

  /** What stays fixed during a consolidation: inputs, plans, which edges are fresh, the previous moves. */
  datatype Setting = Setting(inp: Inputs, plans: Plans, touched: seq<bool>, previous: map<Key, real>)

  ghost predicate Ok(c: Setting) { c.inp.Valid() && Runnable(c.plans) }

  function Edges(c: Setting, key: Key): seq<nat>
    requires c.inp.Valid()
  {
    EdgesOf(c.inp, key, |c.inp.src|)
  }

  function Nodes(c: Setting, key: Key): seq<nat>
    requires c.inp.Valid()
  {
    NodesOf(c.inp, Edges(c, key), |c.inp.direct|)
  }

  /** `compute`: skip a settled key without fresh edges, else refine its subgraph. */
  function Compute(c: Setting, w: World, key: Key): (r: Computed)
    requires Ok(c) && Fits(c.inp, w)
    ensures r.Result? ==> |r.refined.strength| == |Edges(c, key)| == |r.before| && |r.refined.mean| == |Nodes(c, key)|
  {
    if !AnyFresh(c.touched, Edges(c, key)) && key in c.previous && c.previous[key] <= TOLERANCE
       then Skipped(c.previous[key])
    else if Edges(c, key) == [] then Nothing
    else
      Result(Refinement(SubOf(c.inp, key), c.plans(key), Pick(w.state, Nodes(c, key)), Pick(w.strength, Edges(c, key))),
             Pick(w.strength, Edges(c, key)))
  }

  // ----- commit -----

  /** `s[at] = values`. */
  function Scatter(s: seq<real>, at: seq<nat>, values: seq<real>): (r: seq<real>)
    requires |values| == |at|
    ensures |r| == |s|
  {
    seq(|s|, i requires 0 <= i < |s| => if Position(at, i) < |at| then values[Position(at, i)] else s[i])
  }

  function MaxMove(x: seq<real>, y: seq<real>): real
    requires |x| == |y|
  {
    if x == [] then 0.0
    else Max(MaxMove(x[..|x| - 1], y[..|y| - 1]), Sums.Abs(x[|x| - 1] - y[|y| - 1]))
  }

  /** The largest move of a key's pass; a connector pass moves strengths only. */
  function Delta(key: Key, r: Computed, states: seq<real>): real
    requires r.Result? && |r.refined.strength| == |r.before| && |r.refined.mean| == |states|
  {
    if key.connector then MaxMove(r.refined.strength, r.before)
    else Max(MaxMove(r.refined.strength, r.before), MaxMove(r.refined.mean, states))
  }

  function Commit(c: Setting, w: World, key: Key, r: Computed): (after: World)
    requires Ok(c) && Fits(c.inp, w)
    requires r.Result? ==> |r.refined.strength| == |Edges(c, key)| == |r.before| && |r.refined.mean| == |Nodes(c, key)|
    ensures Fits(c.inp, after)
  {
    match r
    case Skipped(delta) => w.(delta := w.delta[key := delta])
    case Nothing => w
    case Result(refined, before) =>
      World(Scatter(w.strength, Edges(c, key), refined.strength),
            if key.connector then w.state else Scatter(w.state, Nodes(c, key), refined.mean),
            w.delta[key := Delta(key, r, Pick(w.state, Nodes(c, key)))])
  }

  // ----- what a phase leaves, key by key, from the frozen inputs -----

  function KeyOf(inp: Inputs, i: nat): Key
    requires inp.Valid() && i < |inp.src|
  {
    Key(inp.labels[inp.src[i]], inp.labels[inp.src[i]] != inp.labels[inp.dst[i]])
  }

  function DoneStrength(c: Setting, w: World, done: set<Key>, i: nat): real
    requires Ok(c) && Fits(c.inp, w) && i < |w.strength|
  {
    var key := KeyOf(c.inp, i);
    if key in done && Compute(c, w, key).Result? && Position(Edges(c, key), i) < |Edges(c, key)|
    then Compute(c, w, key).refined.strength[Position(Edges(c, key), i)] else w.strength[i]
  }

  function DoneState(c: Setting, w: World, done: set<Key>, n: nat): real
    requires Ok(c) && Fits(c.inp, w) && n < |w.state|
  {
    var key := Key(c.inp.labels[n], false);
    if key in done && Compute(c, w, key).Result? && Position(Nodes(c, key), n) < |Nodes(c, key)|
    then Compute(c, w, key).refined.mean[Position(Nodes(c, key), n)] else w.state[n]
  }

  function DoneDelta(c: Setting, w: World, key: Key): real
    requires Ok(c) && Fits(c.inp, w)
  {
    match Compute(c, w, key)
    case Skipped(delta) => delta
    case Nothing => if key in w.delta then w.delta[key] else 0.0
    case Result(refined, before) => Delta(key, Compute(c, w, key), Pick(w.state, Nodes(c, key)))
  }

  /** The world after the keys of `done`, each computed from `w`. */
  ghost predicate Done(c: Setting, w: World, done: set<Key>, after: World)
    requires Ok(c) && Fits(c.inp, w)
  {
    && Fits(c.inp, after)
    && (forall i :: 0 <= i < |w.strength| ==> after.strength[i] == DoneStrength(c, w, done, i))
    && (forall n :: 0 <= n < |w.state| ==> after.state[n] == DoneState(c, w, done, n))
    && (forall key :: key in after.delta <==> key in w.delta || (key in done && !Compute(c, w, key).Nothing?))
    && (forall key :: key in after.delta ==>
           after.delta[key] == if key in done then DoneDelta(c, w, key) else w.delta[key])
  }

  /** That world is determined. */
  lemma DoneIsUnique(c: Setting, w: World, done: set<Key>, a: World, b: World)
    requires Ok(c) && Fits(c.inp, w) && Done(c, w, done, a) && Done(c, w, done, b)
    ensures a == b
  {
    hide Compute, DoneStrength, DoneState, DoneDelta;
    assert a.strength == b.strength && a.state == b.state && a.delta == b.delta;
  }

  ghost predicate OnePhase(done: set<Key>, key: Key) { forall k :: k in done ==> k.connector == key.connector }

  // ----- keys do not meet -----

  lemma PositionOf(c: Setting, key: Key, i: nat)
    requires c.inp.Valid() && i < |c.inp.src|
    ensures Position(Edges(c, key), i) < |Edges(c, key)| <==> KeyOf(c.inp, i) == key
  {
    var edges := Edges(c, key);
    if KeyOf(c.inp, i) == key { EdgesComplete(c.inp, key, |c.inp.src|, i); }
    if Position(edges, i) < |edges| { assert Owns(c.inp, key, edges[Position(edges, i)]); }
  }

  /** The nodes of a normal region all bear its label. */
  lemma NodeLabel(c: Setting, key: Key, j: nat)
    requires c.inp.Valid() && !key.connector && j < |Nodes(c, key)|
    ensures Nodes(c, key)[j] < |c.inp.labels| && c.inp.labels[Nodes(c, key)[j]] == key.region
  {
    var n, edges := Nodes(c, key)[j], Edges(c, key);
    assert Touches(c.inp, edges, n);
    var k :| 0 <= k < |edges| && edges[k] < |c.inp.src| && edges[k] < |c.inp.dst|
      && (c.inp.src[edges[k]] == n || c.inp.dst[edges[k]] == n);
    assert Owns(c.inp, key, edges[k]);
  }

  /** Keys already committed change nothing another key of the phase reads. */
  lemma ComputeIsFrozen(c: Setting, w: World, done: set<Key>, now: World, key: Key)
    requires Ok(c) && Fits(c.inp, w) && Done(c, w, done, now) && key !in done && OnePhase(done, key)
    ensures Compute(c, now, key) == Compute(c, w, key)
    ensures Pick(now.state, Nodes(c, key)) == Pick(w.state, Nodes(c, key))
  {
    hide Compute, Refinement;
    var edges, nodes := Edges(c, key), Nodes(c, key);
    forall j | 0 <= j < |edges| ensures now.strength[edges[j]] == w.strength[edges[j]] {
      assert Owns(c.inp, key, edges[j]);
      assert KeyOf(c.inp, edges[j]) == key;
    }
    forall j | 0 <= j < |nodes| ensures now.state[nodes[j]] == w.state[nodes[j]] {
      if !key.connector { NodeLabel(c, key, j); }
      assert DoneState(c, w, done, nodes[j]) == w.state[nodes[j]];
    }
    SamePicksSameCompute(c, w, now, key);
  }

  lemma SamePicksSameCompute(c: Setting, w: World, now: World, key: Key)
    requires Ok(c) && Fits(c.inp, w) && Fits(c.inp, now)
    requires forall j :: 0 <= j < |Edges(c, key)| ==> now.strength[Edges(c, key)[j]] == w.strength[Edges(c, key)[j]]
    requires forall j :: 0 <= j < |Nodes(c, key)| ==> now.state[Nodes(c, key)[j]] == w.state[Nodes(c, key)[j]]
    ensures Compute(c, now, key) == Compute(c, w, key)
    ensures Pick(now.state, Nodes(c, key)) == Pick(w.state, Nodes(c, key))
  {
    hide Refinement, SubOf, EdgesOf, NodesOf;
    assert Pick(now.state, Nodes(c, key)) == Pick(w.state, Nodes(c, key));
    assert Pick(now.strength, Edges(c, key)) == Pick(w.strength, Edges(c, key));
  }

  lemma CommitStrength(c: Setting, w: World, done: set<Key>, now: World, key: Key, i: nat)
    requires Ok(c) && Fits(c.inp, w) && Done(c, w, done, now) && key !in done && i < |w.strength|
    ensures Commit(c, now, key, Compute(c, w, key)).strength[i] == DoneStrength(c, w, done + {key}, i)
  {
    hide Compute, Delta, Edges, Nodes;
    PositionOf(c, key, i);
    assert now.strength[i] == DoneStrength(c, w, done, i);
  }

  lemma CommitState(c: Setting, w: World, done: set<Key>, now: World, key: Key, n: nat)
    requires Ok(c) && Fits(c.inp, w) && Done(c, w, done, now) && key !in done && n < |w.state|
    ensures Commit(c, now, key, Compute(c, w, key)).state[n] == DoneState(c, w, done + {key}, n)
  {
    hide Compute, Delta, Edges, Nodes;
    var at := Position(Nodes(c, key), n);
    if !key.connector && at < |Nodes(c, key)| { NodeLabel(c, key, at); }
    assert now.state[n] == DoneState(c, w, done, n);
  }

  lemma CommitDelta(c: Setting, w: World, done: set<Key>, now: World, key: Key, k: Key)
    requires Ok(c) && Fits(c.inp, w) && Done(c, w, done, now) && key !in done
    requires Pick(now.state, Nodes(c, key)) == Pick(w.state, Nodes(c, key))
    ensures var after := Commit(c, now, key, Compute(c, w, key));
            && (k in after.delta <==> k in w.delta || (k in done + {key} && !Compute(c, w, k).Nothing?))
            && (k in after.delta ==> after.delta[k] == if k in done + {key} then DoneDelta(c, w, k) else w.delta[k])
  {
    hide Compute, Delta, Edges, Nodes;
    assert k in now.delta <==> k in w.delta || (k in done && !Compute(c, w, k).Nothing?);
  }

  /** One more key, computed from the frozen inputs or from the world as it stands: the same commit. */
  lemma CommitOne(c: Setting, w: World, done: set<Key>, now: World, key: Key)
    requires Ok(c) && Fits(c.inp, w) && Done(c, w, done, now) && key !in done && OnePhase(done, key)
    ensures Compute(c, now, key) == Compute(c, w, key)
    ensures Done(c, w, done + {key}, Commit(c, now, key, Compute(c, w, key)))
  {
    hide Compute, Commit, DoneStrength, DoneState, DoneDelta, Edges, Nodes;
    ComputeIsFrozen(c, w, done, now, key);
    var after := Commit(c, now, key, Compute(c, w, key));
    forall i | 0 <= i < |w.strength| ensures after.strength[i] == DoneStrength(c, w, done + {key}, i) {
      CommitStrength(c, w, done, now, key, i);
    }
    forall n | 0 <= n < |w.state| ensures after.state[n] == DoneState(c, w, done + {key}, n) {
      CommitState(c, w, done, now, key, n);
    }
    forall k
      ensures k in after.delta <==> k in w.delta || (k in done + {key} && !Compute(c, w, k).Nothing?)
      ensures k in after.delta ==> after.delta[k] == if k in done + {key} then DoneDelta(c, w, k) else w.delta[k]
    {
      CommitDelta(c, w, done, now, key, k);
    }
  }

  lemma NothingDone(c: Setting, w: World)
    requires Ok(c) && Fits(c.inp, w)
    ensures Done(c, w, {}, w)
  {
  }

  ghost predicate Distinct(keys: seq<Key>) { forall i, j :: 0 <= i < j < |keys| ==> keys[i] != keys[j] }

  ghost predicate SamePhase(keys: seq<Key>) {
    forall i, j :: 0 <= i < |keys| && 0 <= j < |keys| ==> keys[i].connector == keys[j].connector
  }

  ghost function KeySet(keys: seq<Key>): set<Key> { set k | k in keys }

  lemma NextKey(keys: seq<Key>, i: nat)
    requires Distinct(keys) && SamePhase(keys) && i < |keys|
    ensures keys[i] !in KeySet(keys[..i]) && OnePhase(KeySet(keys[..i]), keys[i])
    ensures KeySet(keys[..i + 1]) == KeySet(keys[..i]) + {keys[i]}
  {
    assert keys[..i + 1] == keys[..i] + [keys[i]];
  }

  /** The world after all keys, each computed from the frozen world ... */
  function Together(c: Setting, w: World, keys: seq<Key>): (now: World)
    requires Ok(c) && Fits(c.inp, w)
    ensures Fits(c.inp, now)
  {
    if keys == [] then w
    else Commit(c, Together(c, w, keys[..|keys| - 1]), keys[|keys| - 1], Compute(c, w, keys[|keys| - 1]))
  }

  /** ... or, as the loop it replaced, each from the world its predecessors left. */
  function OneByOne(c: Setting, w: World, keys: seq<Key>): (now: World)
    requires Ok(c) && Fits(c.inp, w)
    ensures Fits(c.inp, now)
  {
    if keys == [] then w
    else
      var before := OneByOne(c, w, keys[..|keys| - 1]);
      Commit(c, before, keys[|keys| - 1], Compute(c, before, keys[|keys| - 1]))
  }

  /** `run_phase`: all keys computed from the frozen world, then committed in the given order. */
  method RunPhase(c: Setting, w: World, keys: seq<Key>) returns (now: World)
    requires Ok(c) && Fits(c.inp, w)
    ensures now == Together(c, w, keys)
  {
    hide Compute, Commit, Fits, Ok;
    var results: seq<Computed> := [];
    for i := 0 to |keys|
      invariant |results| == i && forall j :: 0 <= j < i ==> results[j] == Compute(c, w, keys[j])
    {
      results := results + [Compute(c, w, keys[i])];
    }
    now := w;
    for i := 0 to |keys|
      invariant Fits(c.inp, now) && now == Together(c, w, keys[..i])
    {
      assert keys[..i + 1][..i] == keys[..i];
      now := Commit(c, now, keys[i], results[i]);
    }
    assert keys[..|keys|] == keys;
  }

  lemma {:induction false} BothAreDone(c: Setting, w: World, keys: seq<Key>)
    requires Ok(c) && Fits(c.inp, w) && Distinct(keys) && SamePhase(keys)
    ensures Done(c, w, KeySet(keys), Together(c, w, keys)) && Done(c, w, KeySet(keys), OneByOne(c, w, keys))
  {
    hide Compute, Commit, Done, Fits, Ok;
    if keys == [] {
      NothingDone(c, w);
      assert KeySet(keys) == {};
    } else {
      var init, n := keys[..|keys| - 1], |keys| - 1;
      BothAreDone(c, w, init);
      NextKey(keys, n);
      assert keys[..n + 1] == keys && keys[..n] == init;
      CommitOne(c, w, KeySet(init), Together(c, w, init), keys[n]);
      CommitOne(c, w, KeySet(init), OneByOne(c, w, init), keys[n]);
    }
  }

  /** Parallel or serial, in any two orders: the same strengths, states and moves. */
  lemma PhaseIsSerial(c: Setting, w: World, keys: seq<Key>, other: seq<Key>)
    requires Ok(c) && Fits(c.inp, w) && Distinct(keys) && SamePhase(keys) && Distinct(other) && SamePhase(other)
    requires KeySet(keys) == KeySet(other)
    ensures Together(c, w, keys) == OneByOne(c, w, other)
    ensures Together(c, w, keys) == Together(c, w, other) && OneByOne(c, w, keys) == OneByOne(c, w, other)
  {
    BothAreDone(c, w, keys);
    BothAreDone(c, w, other);
    hide Done;
    DoneIsUnique(c, w, KeySet(keys), Together(c, w, keys), OneByOne(c, w, other));
    DoneIsUnique(c, w, KeySet(keys), Together(c, w, keys), Together(c, w, other));
    DoneIsUnique(c, w, KeySet(keys), OneByOne(c, w, keys), OneByOne(c, w, other));
  }
}
