/**
 Event settlement of `flat_vrs.py`: a frontier of pending nodes, settled by one of two vehicles, against
 the synchronous iteration of the whole graph.
 */
module FlatVrs {
  import opened Sums

  /** The two functions the kernel does not spell out: `np.tanh` and the rounding to float32. */
  datatype Arithmetic = Arithmetic(tanh: real -> real, f32: real -> real)

  /** One generation: node vectors and directed edges. */
  datatype Graph = Graph(direct: seq<real>, score: seq<real>, src: seq<nat>, dst: seq<nat>, sign: seq<int>,
      strength: seq<real>)
  {
    function Count(): nat { |direct| }

    /** What `FlatGraph.__init__` accepts. */
    predicate Accepted() {
      && |score| == |direct|
      && |src| == |dst| == |sign| == |strength|
      && forall e :: 0 <= e < |src| ==> src[e] < |direct| && dst[e] < |direct|
    }

    function Weight(e: int): real
      requires Accepted() && 0 <= e < |src|
    {
      sign[e] as real * strength[e]
    }
  }

  // ----- the CSR views: edges grouped by endpoint with a stable sort -----

  /** The edges below `k` whose endpoint is `node`, in edge order. */
  function Group(ends: seq<nat>, node: nat, k: nat): (edges: seq<nat>)
    requires k <= |ends|
    ensures forall i :: 0 <= i < |edges| ==> edges[i] < k && ends[edges[i]] == node
    ensures forall e :: 0 <= e < k && ends[e] == node ==> e in edges
  {
    if k == 0 then [] else Group(ends, node, k - 1) + (if ends[k - 1] == node then [k - 1] else [])
  }

  /** `np.argsort(ends, kind='stable')`, restricted to endpoints below `n`. */
  function Order(ends: seq<nat>, n: nat): seq<nat> {
    if n == 0 then [] else Order(ends, n - 1) + Group(ends, n - 1, |ends|)
  }

  /** `np.r_[0, np.cumsum(np.bincount(ends))]`, at position `n`. */
  function Pointer(ends: seq<nat>, n: nat): nat {
    if n == 0 then 0 else Pointer(ends, n - 1) + |Group(ends, n - 1, |ends|)|
  }

  lemma {:induction false} PointerIsLength(ends: seq<nat>, n: nat)
    ensures |Order(ends, n)| == Pointer(ends, n)
  {
    if n > 0 { PointerIsLength(ends, n - 1); }
  }

  lemma TakeOfConcat(a: seq<nat>, b: seq<nat>, k: nat)
    requires k <= |a|
    ensures (a + b)[..k] == a[..k]
  {
  }

  lemma OrderStep(ends: seq<nat>, m: nat)
    requires m > 0
    ensures Order(ends, m) == Order(ends, m - 1) + Group(ends, m - 1, |ends|)
  {
  }

  lemma {:induction false} OrderExtends(ends: seq<nat>, n: nat, m: nat)
    requires n <= m
    ensures |Order(ends, n)| <= |Order(ends, m)| && Order(ends, m)[..|Order(ends, n)|] == Order(ends, n)
    decreases m - n
  {
    hide *;
    if n < m {
      OrderExtends(ends, n, m - 1);
      OrderStep(ends, m);
      TakeOfConcat(Order(ends, m - 1), Group(ends, m - 1, |ends|), |Order(ends, n)|);
    }
  }

  /** A node's slice of the grouped array is exactly its own edges. */
  lemma SliceIsGroup(ends: seq<nat>, node: nat, n: nat)
    requires node < n
    ensures Pointer(ends, node) <= Pointer(ends, node + 1) <= |Order(ends, n)|
    ensures Order(ends, n)[Pointer(ends, node)..Pointer(ends, node + 1)] == Group(ends, node, |ends|)
  {
    PointerIsLength(ends, node);
    PointerIsLength(ends, node + 1);
    OrderExtends(ends, node + 1, n);
    var whole, own := Order(ends, node) + Group(ends, node, |ends|), Order(ends, n);
    assert own[..|whole|] == whole;
  }

  // ----- the update equation -----

  function Contribution(g: Graph, score: seq<real>, e: int): real
    requires g.Accepted() && |score| == g.Count() && 0 <= e < |g.src|
  {
    score[g.src[e]] * g.Weight(e)
  }

  ghost function SignalTerm(g: Graph, score: seq<real>, n: nat): int -> real {
    e => if g.Accepted() && |score| == g.Count() && 0 <= e < |g.src| && g.dst[e] == n
         then Contribution(g, score, e) else 0.0
  }

  /** The incoming signal of a node, over all edges. */
  ghost function Signal(g: Graph, score: seq<real>, n: nat): real {
    Sum(0, |g.src|, SignalTerm(g, score, n))
  }

  function MassTerm(g: Graph, n: nat): int -> real {
    e => if g.Accepted() && 0 <= e < |g.src| && g.dst[e] == n then Abs(g.strength[e]) else 0.0
  }

  /** `den`: the incoming strength mass, at least 1. */
  function Den(g: Graph, n: nat): (den: real)
    ensures den >= 1.0
  {
    var mass := Sum(0, |g.src|, MassTerm(g, n));
    if mass > 1.0 then mass else 1.0
  }

  function Settled(a: Arithmetic, value: real, direct: real, signal: real, den: real): real
    requires den >= 1.0
  {
    a.f32(0.8 * value + 0.2 * a.tanh(direct + 0.2 * signal / den))
  }

  ghost function Next(a: Arithmetic, g: Graph, score: seq<real>, n: nat): real
    requires g.Accepted() && |score| == g.Count() && n < g.Count()
  {
    Settled(a, score[n], g.direct[n], Signal(g, score, n), Den(g, n))
  }

  /** One synchronous round of every node. */
  ghost function FullRound(a: Arithmetic, g: Graph, score: seq<real>): (next: seq<real>)
    requires g.Accepted() && |score| == g.Count()
    ensures |next| == |score|
  {
    seq(|score|, n requires 0 <= n < |score| => Next(a, g, score, n))
  }

  ghost function Iterate(a: Arithmetic, g: Graph, score: seq<real>, rounds: nat): (after: seq<real>)
    requires g.Accepted() && |score| == g.Count()
    ensures |after| == |score|
  {
    if rounds == 0 then score else FullRound(a, g, Iterate(a, g, score, rounds - 1))
  }

  ghost predicate AtRest(a: Arithmetic, g: Graph, score: seq<real>, n: nat)
    requires g.Accepted() && |score| == g.Count() && n < g.Count()
  {
    Next(a, g, score, n) == score[n]
  }

  /** A node whose own score and sources are unchanged has an unchanged equation. */
  lemma SameSourcesSameNext(a: Arithmetic, g: Graph, before: seq<real>, after: seq<real>, n: nat)
    requires g.Accepted() && |before| == |after| == g.Count() && n < g.Count()
    requires after[n] == before[n]
    requires forall e :: 0 <= e < |g.src| && g.dst[e] == n ==> after[g.src[e]] == before[g.src[e]]
    ensures Next(a, g, after, n) == Next(a, g, before, n)
  {
    SumSame(0, |g.src|, SignalTerm(g, before, n), SignalTerm(g, after, n));
  }

  // ----- the two vehicles compute the same signal -----

  ghost function GatherTerm(g: Graph, score: seq<real>, edges: seq<nat>): int -> real {
    i => if g.Accepted() && |score| == g.Count() && 0 <= i < |edges| && edges[i] < |g.src|
         then Contribution(g, score, edges[i]) else 0.0
  }

  lemma {:induction false} GatherIsSignal(g: Graph, score: seq<real>, n: nat, k: nat)
    requires g.Accepted() && |score| == g.Count() && k <= |g.dst|
    ensures var edges := Group(g.dst, n, k);
            Sum(0, |edges|, GatherTerm(g, score, edges)) == Sum(0, k, SignalTerm(g, score, n))
  {
    hide Contribution;
    if k > 0 {
      GatherIsSignal(g, score, n, k - 1);
      var before, edges := Group(g.dst, n, k - 1), Group(g.dst, n, k);
      SumSame(0, |before|, GatherTerm(g, score, before), GatherTerm(g, score, edges));
    }
  }

  lemma GatherStep(g: Graph, score: seq<real>, edges: seq<nat>, i: nat)
    requires g.Accepted() && |score| == g.Count() && i < |edges| && edges[i] < |g.src|
    ensures Sum(0, i + 1, GatherTerm(g, score, edges))
         == Sum(0, i, GatherTerm(g, score, edges)) + Contribution(g, score, edges[i])
  {
  }

  lemma ContributionOf(g: Graph, score: seq<real>, e: nat)
    requires g.Accepted() && |score| == g.Count() && e < |g.src|
    ensures score[g.src[e]] * g.Weight(e) == Contribution(g, score, e)
  {
  }

  lemma GatherStart(g: Graph, score: seq<real>, edges: seq<nat>)
    ensures Sum(0, 0, GatherTerm(g, score, edges)) == 0.0
  {
  }

  /** `_gather_ranges` for one node: the sum over its slice of `in_edge`. */
  method GatherSlice(g: Graph, score: array<real>, inEdge: seq<nat>, from: nat, to: nat) returns (signal: real)
    requires g.Accepted() && score.Length == g.Count()
    requires from <= to <= |inEdge| && forall i :: from <= i < to ==> inEdge[i] < |g.src|
    ensures signal == Sum(0, to - from, GatherTerm(g, score[..], inEdge[from..to]))
  {
    ghost var edges := inEdge[from..to];
    hide Sum, GatherTerm, Contribution;
    GatherStart(g, score[..], edges);
    signal := 0.0;
    var i := from;
    while i < to
      invariant from <= i <= to
      invariant signal == Sum(0, i - from, GatherTerm(g, score[..], edges))
    {
      var e := inEdge[i];
      assert e == edges[i - from];
      GatherStep(g, score[..], edges, i - from);
      ContributionOf(g, score[..], e);
      var contribution := score[g.src[e]] * g.Weight(e);
      signal := signal + contribution;
      i := i + 1;
    }
  }

  method GatherSignal(g: Graph, score: array<real>, inEdge: seq<nat>, from: nat, to: nat, ghost n: nat)
    returns (signal: real)
    requires g.Accepted() && score.Length == g.Count() && n < g.Count()
    requires from <= to <= |inEdge| && inEdge[from..to] == Group(g.dst, n, |g.dst|)
    ensures signal == Signal(g, score[..], n)
  {
    hide Sum, GatherTerm;
    assert forall i :: from <= i < to ==> inEdge[i] == inEdge[from..to][i - from];
    signal := GatherSlice(g, score, inEdge, from, to);
    GatherIsSignal(g, score[..], n, |g.dst|);
  }

  /** Entry (n, s) of `csr_matrix((values, (dst, src)))`: parallel edges are added up. */
  ghost function EntryTerm(g: Graph, values: seq<real>, n: nat, s: int): int -> real {
    e => if g.Accepted() && 0 <= e < |g.src| && e < |values| && g.dst[e] == n && g.src[e] == s then values[e] else 0.0
  }

  ghost function Entry(g: Graph, values: seq<real>, n: nat, s: int, k: nat): real {
    Sum(0, k, EntryTerm(g, values, n, s))
  }

  function Times(a: real, b: real): real { a * b }

  ghost function RowTerm(g: Graph, values: seq<real>, x: seq<real>, n: nat, k: nat): int -> real {
    s => if 0 <= s < |x| then Times(Entry(g, values, n, s, k), x[s]) else 0.0
  }

  ghost function EdgeTerm(g: Graph, values: seq<real>, x: seq<real>, n: nat): int -> real {
    e => if g.Accepted() && |x| == g.Count() && 0 <= e < |g.src| && e < |values| && g.dst[e] == n
         then Times(values[e], x[g.src[e]]) else 0.0
  }

  /** A row of the matrix-vector product, edge by edge. */
  lemma {:induction false} RowIsEdges(g: Graph, values: seq<real>, x: seq<real>, n: nat, k: nat)
    requires g.Accepted() && |x| == g.Count() && |values| == |g.src| && k <= |g.src|
    ensures Sum(0, |x|, RowTerm(g, values, x, n, k)) == Sum(0, k, EdgeTerm(g, values, x, n))
  {
    hide Times;
    if k == 0 {
      forall s | 0 <= s < |x| ensures RowTerm(g, values, x, n, 0)(s) == 0.0 {
        assert Entry(g, values, n, s, 0) == 0.0;
        Distribute(0.0, 0.0, x[s]);
      }
      SumZero(0, |x|, RowTerm(g, values, x, n, 0));
    } else {
      RowIsEdges(g, values, x, n, k - 1);
      var before, after := RowTerm(g, values, x, n, k - 1), RowTerm(g, values, x, n, k);
      var s := g.src[k - 1];
      forall t | 0 <= t < |x|
        ensures Entry(g, values, n, t, k) == Entry(g, values, n, t, k - 1) + EntryTerm(g, values, n, t)(k - 1) {}
      assert after(s) == before(s) + EdgeTerm(g, values, x, n)(k - 1) by {
        Distribute(Entry(g, values, n, s, k - 1), EntryTerm(g, values, n, s)(k - 1), x[s]);
      }
      SumChangeOne(0, |x|, s, before, after);
    }
  }

  lemma Distribute(a: real, b: real, c: real)
    ensures Times(a + b, c) == Times(a, c) + Times(b, c) && Times(0.0, c) == 0.0
  {}

  type Matrix = map<(nat, nat), real>

  ghost predicate MatrixOf(g: Graph, values: seq<real>, m: Matrix)
    requires g.Accepted()
  {
    && (forall n: nat, s: nat :: (n, s) in m ==> m[(n, s)] == Entry(g, values, n, s, |g.src|))
    && (forall n: nat, s: nat :: (n, s) !in m ==> Entry(g, values, n, s, |g.src|) == 0.0)
  }

  method CsrMatrix(g: Graph, values: seq<real>) returns (m: Matrix)
    requires g.Accepted() && |values| == |g.src|
    ensures MatrixOf(g, values, m)
  {
    m := map[];
    forall n: nat, s: nat ensures Entry(g, values, n, s, 0) == 0.0 {}
    var e := 0;
    while e < |g.src|
      invariant 0 <= e <= |g.src|
      invariant forall n: nat, s: nat :: (n, s) in m ==> m[(n, s)] == Entry(g, values, n, s, e)
      invariant forall n: nat, s: nat :: (n, s) !in m ==> Entry(g, values, n, s, e) == 0.0
    {
      forall n: nat, s: nat
        ensures Entry(g, values, n, s, e + 1) == Entry(g, values, n, s, e) + EntryTerm(g, values, n, s)(e) {}
      var at := (g.dst[e], g.src[e]);
      m := m[at := (if at in m then m[at] else 0.0) + values[e]];
      e := e + 1;
    }
  }

  /** One row of `matrix @ x`. */
  method RowTimes(m: Matrix, x: seq<real>, n: nat, ghost g: Graph, ghost values: seq<real>) returns (product: real)
    requires g.Accepted() && |x| == g.Count() && |values| == |g.src| && MatrixOf(g, values, m)
    ensures product == Sum(0, |g.src|, EdgeTerm(g, values, x, n))
  {
    product := 0.0;
    var s := 0;
    while s < |x|
      invariant 0 <= s <= |x|
      invariant product == Sum(0, s, RowTerm(g, values, x, n, |g.src|))
    {
      if (n, s) in m { product := product + m[(n, s)] * x[s]; }
      s := s + 1;
    }
    RowIsEdges(g, values, x, n, |g.src|);
  }

  function EdgeWeights(g: Graph): (w: seq<real>)
    requires g.Accepted()
    ensures |w| == |g.src|
  {
    seq(|g.src|, e requires 0 <= e < |g.src| => g.Weight(e))
  }

  /** The matrix vehicle's signal is the gather vehicle's. */
  lemma MatrixIsSignal(g: Graph, score: seq<real>, n: nat)
    requires g.Accepted() && |score| == g.Count()
    ensures Sum(0, |g.src|, EdgeTerm(g, EdgeWeights(g), score, n)) == Signal(g, score, n)
  {
    SumSame(0, |g.src|, EdgeTerm(g, EdgeWeights(g), score, n), SignalTerm(g, score, n));
  }

  // ----- who wakes up -----

  ghost predicate Feeds(g: Graph, moved: seq<bool>, n: nat)
    requires g.Accepted() && |moved| == g.Count()
  {
    exists e :: 0 <= e < |g.src| && g.dst[e] == n && moved[g.src[e]]
  }

  function Mask(moved: seq<bool>): (m: seq<real>)
    ensures |m| == |moved|
  {
    seq(|moved|, i requires 0 <= i < |moved| => if moved[i] then 1.0 else 0.0)
  }

  function Ones(n: nat): (ones: seq<real>)
    ensures |ones| == n
  {
    seq(n, _ => 1.0)
  }

  lemma {:induction false} PositiveMeansFed(g: Graph, moved: seq<bool>, n: nat, k: nat)
    requires g.Accepted() && |moved| == g.Count() && k <= |g.src|
    ensures var row := Sum(0, k, EdgeTerm(g, Ones(|g.src|), Mask(moved), n));
            row >= 0.0 && (row > 0.0 <==> exists e :: 0 <= e < k && g.dst[e] == n && moved[g.src[e]])
  {
    if k > 0 { PositiveMeansFed(g, moved, n, k - 1); }
  }

  // ----- one round of the frontier -----

  /** The generation's derived arrays and, with SciPy, its two matrices. */
  datatype Views = Views(inPtr: seq<nat>, inEdge: seq<nat>, outPtr: seq<nat>, outEdge: seq<nat>, den: seq<real>,
                         matrix: Matrix, adjacency: Matrix)

  ghost predicate ViewsOf(g: Graph, v: Views)
    requires g.Accepted()
  {
    && |v.inPtr| == |v.outPtr| == g.Count() + 1 && |v.den| == g.Count()
    && (forall n :: 0 <= n <= g.Count() ==> v.inPtr[n] == Pointer(g.dst, n))
    && (forall n :: 0 <= n <= g.Count() ==> v.outPtr[n] == Pointer(g.src, n))
    && v.inEdge == Order(g.dst, g.Count()) && v.outEdge == Order(g.src, g.Count())
    && (forall n :: 0 <= n < g.Count() ==> v.den[n] == Den(g, n))
    && MatrixOf(g, EdgeWeights(g), v.matrix) && MatrixOf(g, Ones(|g.src|), v.adjacency)
  }

  /** The next value of every pending node, by either vehicle, from the scores before the round. */
  method RoundValues(a: Arithmetic, g: Graph, v: Views, score: array<real>, nodes: seq<nat>, dense: bool)
    returns (next: seq<real>)
    requires g.Accepted() && ViewsOf(g, v) && score.Length == g.Count()
    requires forall i :: 0 <= i < |nodes| ==> nodes[i] < g.Count()
    ensures |next| == |nodes|
    ensures forall i :: 0 <= i < |nodes| ==> next[i] == Next(a, g, score[..], nodes[i])
  {
    next := [];
    var i := 0;
    while i < |nodes|
      invariant 0 <= i <= |nodes| == |nodes| && |next| == i
      invariant forall j :: 0 <= j < i ==> next[j] == Next(a, g, score[..], nodes[j])
    {
      var n := nodes[i];
      var signal;
      if dense {
        signal := RowTimes(v.matrix, score[..], n, g, EdgeWeights(g));
        MatrixIsSignal(g, score[..], n);
      } else {
        SliceIsGroup(g.dst, n, g.Count());
        signal := GatherSignal(g, score, v.inEdge, v.inPtr[n], v.inPtr[n + 1], n);
      }
      next := next + [Settled(a, score[n], g.direct[n], signal, v.den[n])];
      i := i + 1;
    }
  }

  /** The nodes to revisit: every moved node and every node one of them feeds. */
  method WakeTargets(g: Graph, v: Views, moved: seq<bool>, scipy: bool) returns (pending: seq<bool>)
    requires g.Accepted() && ViewsOf(g, v) && |moved| == g.Count()
    ensures WokenBy(g, moved, pending)
  {
    if scipy {
      pending := [];
      while |pending| < g.Count()
        invariant |pending| <= g.Count()
        invariant forall n :: 0 <= n < |pending| ==> (pending[n] <==> moved[n] || Feeds(g, moved, n))
      {
        var n := |pending|;
        var row := RowTimes(v.adjacency, Mask(moved), n, g, Ones(|g.src|));
        PositiveMeansFed(g, moved, n, |g.src|);
        pending := pending + [moved[n] || row > 0.0];
      }
    } else {
      pending := ScatterTargets(g, v, moved);
    }
  }

  ghost predicate FedBelow(g: Graph, moved: seq<bool>, n: nat, u: nat)
    requires g.Accepted() && |moved| == g.Count() && u <= g.Count()
  {
    exists e :: 0 <= e < |g.src| && g.dst[e] == n && g.src[e] < u && moved[g.src[e]]
  }

  /** The gather vehicle: the slices of `out_edge` of the moved nodes. */
  method ScatterTargets(g: Graph, v: Views, moved: seq<bool>) returns (pending: seq<bool>)
    requires g.Accepted() && ViewsOf(g, v) && |moved| == g.Count()
    ensures WokenBy(g, moved, pending)
  {
    hide MatrixOf, Den;
    pending := moved;
    var u := 0;
    while u < g.Count()
      invariant 0 <= u <= g.Count() == |pending|
      invariant forall n :: 0 <= n < g.Count() ==> (pending[n] <==> moved[n] || FedBelow(g, moved, n, u))
    {
      ghost var was := pending;
      if moved[u] {
        SliceIsGroup(g.src, u, g.Count());
        pending := MarkTargets(g, v.outEdge, v.outPtr[u], v.outPtr[u + 1], pending, u);
      }
      forall n | 0 <= n < g.Count() ensures pending[n] <==> moved[n] || FedBelow(g, moved, n, u + 1) {
        if moved[u] { OneMoreSource(g, moved, n, u); }
      }
      u := u + 1;
    }
  }

  ghost predicate Targets(g: Graph, edges: seq<nat>, n: nat)
    requires g.Accepted() && forall i :: 0 <= i < |edges| ==> edges[i] < |g.src|
  {
    exists j :: 0 <= j < |edges| && g.dst[edges[j]] == n
  }

  method MarkTargets(g: Graph, outEdge: seq<nat>, from: nat, to: nat, before: seq<bool>, ghost u: nat)
    returns (pending: seq<bool>)
    requires g.Accepted() && |before| == g.Count()
    requires from <= to <= |outEdge| && outEdge[from..to] == Group(g.src, u, |g.src|)
    ensures |pending| == g.Count()
    ensures forall n :: 0 <= n < g.Count() ==> (pending[n] <==> before[n] || Targets(g, Group(g.src, u, |g.src|), n))
  {
    ghost var own := outEdge[from..to];
    pending := before;
    var i := from;
    while i < to
      invariant from <= i <= to && |pending| == g.Count()
      invariant forall n :: 0 <= n < g.Count() ==>
        (pending[n] <==> before[n] || exists j :: 0 <= j < i - from && g.dst[own[j]] == n)
    {
      assert outEdge[i] == own[i - from];
      pending := pending[g.dst[outEdge[i]] := true];
      i := i + 1;
    }
  }

  lemma OneMoreSource(g: Graph, moved: seq<bool>, n: nat, u: nat)
    requires g.Accepted() && |moved| == g.Count() && u < g.Count() && moved[u]
    ensures FedBelow(g, moved, n, u + 1) <==> FedBelow(g, moved, n, u) || Targets(g, Group(g.src, u, |g.src|), n)
  {
    var own := Group(g.src, u, |g.src|);
    if FedBelow(g, moved, n, u + 1) && !FedBelow(g, moved, n, u) {
      var e :| 0 <= e < |g.src| && g.dst[e] == n && g.src[e] < u + 1 && moved[g.src[e]];
      assert e in own;
      var j :| 0 <= j < |own| && own[j] == e;
      assert g.dst[own[j]] == n;
    }
    if Targets(g, own, n) {
      var j :| 0 <= j < |own| && g.dst[own[j]] == n;
      assert g.src[own[j]] == u;
    }
  }

  // ----- settle -----

  ghost predicate RestUnless(a: Arithmetic, g: Graph, score: seq<real>, start: seq<real>, n: nat)
    requires g.Accepted() && |score| == |start| == g.Count() && n < g.Count()
  {
    || AtRest(a, g, score, n)
    // never visited, not at rest to begin with, and neither it nor its equation has changed since
    || (!AtRest(a, g, start, n) && score[n] == start[n] && Next(a, g, score, n) == Next(a, g, start, n))
  }

  ghost predicate StartsAtRest(a: Arithmetic, g: Graph, start: seq<real>, seeds: seq<nat>)
    requires g.Accepted() && |start| == g.Count()
  {
    forall n :: 0 <= n < g.Count() && n !in seeds ==> AtRest(a, g, start, n)
  }

  /** One round applied to the pending nodes only. */
  ghost function FrontierRound(a: Arithmetic, g: Graph, score: seq<real>, pending: seq<bool>): (next: seq<real>)
    requires g.Accepted() && |score| == |pending| == g.Count()
    ensures |next| == |score|
  {
    seq(|score|, n requires 0 <= n < |score| => if pending[n] then Next(a, g, score, n) else score[n])
  }

  /** When the waiting nodes are at rest, the frontier round is the full round. */
  lemma FrontierIsFull(a: Arithmetic, g: Graph, score: seq<real>, pending: seq<bool>)
    requires g.Accepted() && |score| == |pending| == g.Count()
    requires forall n :: 0 <= n < g.Count() && !pending[n] ==> AtRest(a, g, score, n)
    ensures FrontierRound(a, g, score, pending) == FullRound(a, g, score)
  {}

  /** After a round, whoever does not wake up is at rest, or was never visited and still is as at the start. */
  lemma AsleepRest(a: Arithmetic, g: Graph, start: seq<real>, score: seq<real>, pending: seq<bool>, moved: seq<bool>,
      n: nat)
    requires g.Accepted() && |start| == |score| == |pending| == |moved| == g.Count() && n < g.Count()
    requires forall m :: 0 <= m < g.Count() && !pending[m] ==> RestUnless(a, g, score, start, m)
    requires forall m :: 0 <= m < g.Count() ==>
               (moved[m] <==> FrontierRound(a, g, score, pending)[m] != score[m])
    requires !moved[n] && !Feeds(g, moved, n)
    ensures RestUnless(a, g, FrontierRound(a, g, score, pending), start, n)
    ensures pending[n] || AtRest(a, g, score, n) ==> AtRest(a, g, FrontierRound(a, g, score, pending), n)
  {
    var after := FrontierRound(a, g, score, pending);
    forall e | 0 <= e < |g.src| && g.dst[e] == n ensures after[g.src[e]] == score[g.src[e]] {
      assert !moved[g.src[e]];
    }
    SameSourcesSameNext(a, g, score, after, n);
  }

  /** What holds between rounds; `calm` says that only the seeds were awake at the start. */
  ghost predicate Standing(a: Arithmetic, g: Graph, start: seq<real>, score: seq<real>, pending: seq<bool>, calm: bool,
      rounds: nat)
  {
    && g.Accepted() && |start| == |score| == |pending| == g.Count()
    && (forall n :: 0 <= n < g.Count() && !pending[n] ==> RestUnless(a, g, score, start, n))
    && (calm ==>
         && (forall n :: 0 <= n < g.Count() && !pending[n] ==> AtRest(a, g, score, n))
         && score == Iterate(a, g, start, rounds))
  }

  ghost predicate MovedBy(before: seq<real>, after: seq<real>, moved: seq<bool>) {
    |before| == |after| == |moved| && forall n :: 0 <= n < |moved| ==> (moved[n] <==> after[n] != before[n])
  }

  ghost predicate WokenBy(g: Graph, moved: seq<bool>, woken: seq<bool>)
    requires g.Accepted() && |moved| == g.Count()
  {
    |woken| == |moved| && forall n :: 0 <= n < |moved| ==> (woken[n] <==> moved[n] || Feeds(g, moved, n))
  }

  lemma StandingRound(a: Arithmetic, g: Graph, start: seq<real>, score: seq<real>, pending: seq<bool>, calm: bool,
      rounds: nat, moved: seq<bool>, woken: seq<bool>)
    requires Standing(a, g, start, score, pending, calm, rounds)
    requires MovedBy(score, FrontierRound(a, g, score, pending), moved) && WokenBy(g, moved, woken)
    ensures Standing(a, g, start, FrontierRound(a, g, score, pending), woken, calm, rounds + 1)
  {
    if calm { FrontierIsFull(a, g, score, pending); }
    hide RestUnless, AtRest, Feeds, FrontierRound, Next;
    forall n | 0 <= n < g.Count() && !woken[n]
      ensures RestUnless(a, g, FrontierRound(a, g, score, pending), start, n)
      ensures calm ==> AtRest(a, g, FrontierRound(a, g, score, pending), n)
    {
      AsleepRest(a, g, start, score, pending, moved, n);
    }
  }

  lemma StandingAtStart(a: Arithmetic, g: Graph, start: seq<real>, seeds: seq<nat>, pending: seq<bool>)
    requires g.Accepted() && |start| == |pending| == g.Count()
    requires forall n :: 0 <= n < g.Count() ==> (pending[n] <==> n in seeds)
    ensures Standing(a, g, start, start, pending, StartsAtRest(a, g, start, seeds), 0)
  {
  }

  lemma NobodyWoken(g: Graph, moved: seq<bool>, woken: seq<bool>)
    requires g.Accepted() && |moved| == g.Count() && WokenBy(g, moved, woken)
    requires forall n :: 0 <= n < |moved| ==> !moved[n]
    ensures forall n :: 0 <= n < |woken| ==> !woken[n]
  {
  }

  datatype Receipt = Receipt(fixedPoint: bool, rounds: nat, pendingNodes: seq<nat>)

  /** What `settle` reports. */
  ghost predicate Reported(a: Arithmetic, g: Graph, seeds: seq<nat>, settled: seq<real>, receipt: Receipt)
    requires g.Accepted()
  {
    && |settled| == g.Count()
    && (forall n :: 0 <= n < g.Count() && n !in receipt.pendingNodes ==> RestUnless(a, g, settled, g.score, n))
    && (StartsAtRest(a, g, g.score, seeds) ==>
         && settled == Iterate(a, g, g.score, receipt.rounds)
         && (forall n :: 0 <= n < g.Count() && n !in receipt.pendingNodes ==> AtRest(a, g, settled, n))
         && (receipt.fixedPoint ==> FullRound(a, g, settled) == settled))
  }

  lemma StandingIsReported(a: Arithmetic, g: Graph, seeds: seq<nat>, settled: seq<real>, pending: seq<bool>,
      receipt: Receipt)
    requires g.Accepted()
    requires Standing(a, g, g.score, settled, pending, StartsAtRest(a, g, g.score, seeds), receipt.rounds)
    requires forall n :: n in receipt.pendingNodes <==> 0 <= n < |pending| && pending[n]
    requires receipt.fixedPoint ==> receipt.pendingNodes == []
    ensures Reported(a, g, seeds, settled, receipt)
  {
    hide RestUnless, StartsAtRest, Iterate, Next;
    if receipt.fixedPoint && StartsAtRest(a, g, g.score, seeds) {
      forall n | 0 <= n < g.Count() ensures FullRound(a, g, settled)[n] == settled[n] {
        assert n !in receipt.pendingNodes;
        assert AtRest(a, g, settled, n);
      }
    }
  }

  method BuildViews(g: Graph) returns (v: Views)
    requires g.Accepted()
    ensures ViewsOf(g, v)
  {
    var n := g.Count();
    var matrix := CsrMatrix(g, EdgeWeights(g));
    var adjacency := CsrMatrix(g, Ones(|g.src|));
    v := Views(seq(n + 1, i requires 0 <= i => Pointer(g.dst, i)), Order(g.dst, n),
               seq(n + 1, i requires 0 <= i => Pointer(g.src, i)), Order(g.src, n),
               seq(n, i requires 0 <= i => Den(g, i)), matrix, adjacency);
  }

  method FlatNonzero(pending: seq<bool>) returns (nodes: seq<nat>)
    ensures forall i :: 0 <= i < |nodes| ==> nodes[i] < |pending|
    ensures forall n :: n in nodes <==> 0 <= n < |pending| && pending[n]
    ensures forall i, j :: 0 <= i < j < |nodes| ==> nodes[i] < nodes[j]
  {
    nodes := [];
    var n := 0;
    while n < |pending|
      invariant 0 <= n <= |pending|
      invariant forall i :: 0 <= i < |nodes| ==> nodes[i] < n
      invariant forall m :: m in nodes <==> 0 <= m < n && pending[m]
      invariant forall i, j :: 0 <= i < j < |nodes| ==> nodes[i] < nodes[j]
    {
      if pending[n] { nodes := nodes + [n]; }
      n := n + 1;
    }
  }

  /** Writes the new values and reports which nodes moved. */
  method WriteScores(a: Arithmetic, g: Graph, score: array<real>, nodes: seq<nat>, next: seq<real>,
      ghost pending: seq<bool>)
    returns (moved: seq<bool>)
    requires g.Accepted() && score.Length == g.Count() == |pending| && |next| == |nodes|
    requires forall i :: 0 <= i < |nodes| ==> nodes[i] < g.Count()
    requires forall n :: n in nodes <==> 0 <= n < |pending| && pending[n]
    requires forall i, j :: 0 <= i < j < |nodes| ==> nodes[i] < nodes[j]
    requires forall i :: 0 <= i < |nodes| ==> next[i] == Next(a, g, score[..], nodes[i])
    modifies score
    ensures score[..] == FrontierRound(a, g, old(score[..]), pending)
    ensures MovedBy(old(score[..]), score[..], moved)
  {
    hide Next;
    ghost var was := score[..];
    moved := seq(score.Length, _ => false);
    var i := 0;
    while i < |nodes|
      invariant 0 <= i <= |nodes| && |moved| == g.Count()
      invariant forall j :: 0 <= j < i ==> score[nodes[j]] == next[j]
      invariant forall j :: i <= j < |nodes| ==> score[nodes[j]] == was[nodes[j]]
      invariant forall n :: 0 <= n < g.Count() && n !in nodes ==> score[n] == was[n]
      invariant forall n :: 0 <= n < g.Count() ==> (moved[n] <==> score[n] != was[n])
    {
      moved := moved[nodes[i] := next[i] != score[nodes[i]]];
      score[nodes[i]] := next[i];
      i := i + 1;
    }
    forall n | 0 <= n < g.Count() ensures score[n] == FrontierRound(a, g, was, pending)[n] {
      if pending[n] {
        assert n in nodes;
        var j :| 0 <= j < |nodes| && nodes[j] == n;
      }
    }
    assert score[..] == FrontierRound(a, g, was, pending);
  }

  /** `settle`. */
  method Settle(a: Arithmetic, g: Graph, seeds: seq<nat>, maximumRounds: nat, scipy: bool, denseThreshold: real)
    returns (settled: seq<real>, receipt: Receipt)
    requires g.Accepted() && forall i :: 0 <= i < |seeds| ==> seeds[i] < g.Count()
    ensures receipt.rounds <= maximumRounds && (!receipt.fixedPoint ==> receipt.rounds == maximumRounds)
    ensures receipt.fixedPoint <==> receipt.pendingNodes == []
    ensures Reported(a, g, seeds, settled, receipt)
  {
    hide Standing, StartsAtRest, FrontierRound, Reported, ViewsOf;
    var v := BuildViews(g);
    var count := g.Count();
    var score := new real[count](i requires 0 <= i < count => g.score[i]);
    assert score[..] == g.score;
    var pending := seq(count, n => n in seeds);
    ghost var calm := StartsAtRest(a, g, g.score, seeds);
    StandingAtStart(a, g, g.score, seeds, pending);
    var rounds := 0;
    var matrices := scipy && |g.src| > 0;
    while rounds < maximumRounds
      invariant rounds <= maximumRounds && |pending| == count
      invariant Standing(a, g, g.score, score[..], pending, calm, rounds)
    {
      var nodes := FlatNonzero(pending);
      if nodes == [] { break; }
      ghost var before := score[..];
      var next := RoundValues(a, g, v, score, nodes, matrices && |nodes| as real > denseThreshold * count as real);
      var moved := WriteScores(a, g, score, nodes, next, pending);
      var woken := WakeTargets(g, v, moved, matrices);
      StandingRound(a, g, g.score, before, pending, calm, rounds, moved, woken);
      rounds := rounds + 1;
      // Without a moved node nothing is woken; the source's early exit leaves the same empty frontier.
      pending := woken;
      if forall n :: 0 <= n < count ==> !moved[n] {
        NobodyWoken(g, moved, woken);
        break;
      }
    }
    var remaining := FlatNonzero(pending);
    assert remaining != [] ==> remaining[0] in remaining;
    settled := score[..];
    receipt := Receipt(remaining == [], rounds, remaining);
    StandingIsReported(a, g, seeds, settled, pending, receipt);
  }

  // ----- the round is a contraction -----

  /** What is used of `np.tanh`: it moves no further than its argument, is odd and never leaves (-1, 1). */
  ghost predicate TanhLike(tanh: real -> real) {
    && (forall x, y :: Abs(tanh(x) - tanh(y)) <= Abs(x - y))
    && (forall x :: Abs(tanh(x)) <= 1.0)
    && (forall x :: tanh(-x) == -tanh(x))
  }

  /** Arithmetic over the reals: no rounding. */
  ghost predicate Exact(a: Arithmetic) { TanhLike(a.tanh) && forall x :: a.f32(x) == x }

  ghost predicate SignsBounded(g: Graph) { forall e :: 0 <= e < |g.sign| ==> -1 <= g.sign[e] <= 1 }

  ghost predicate Within(x: seq<real>, y: seq<real>, d: real) {
    |x| == |y| && forall i :: 0 <= i < |x| ==> Abs(x[i] - y[i]) <= d
  }

  ghost function DifferenceTerm(g: Graph, x: seq<real>, y: seq<real>, n: nat): int -> real {
    e => SignalTerm(g, x, n)(e) - SignalTerm(g, y, n)(e)
  }

  ghost function ScaledMass(g: Graph, n: nat, d: real): int -> real { e => d * MassTerm(g, n)(e) }

  lemma TimesNonNegative(x: real, y: real)
    requires x >= 0.0 && y >= 0.0
    ensures Times(x, y) >= 0.0
  {}

  lemma TimesMinus(x: real, y: real, z: real)
    ensures Times(x - y, z) == Times(x, z) - Times(y, z) && Times(z, x - y) == Times(z, x) - Times(z, y)
  {}

  lemma TimesUnit(x: real)
    ensures Times(1.0, x) == x && Times(0.0, x) == 0.0 == Times(x, 0.0)
  {}

  lemma TimesOrder(x: real, y: real, z: real)
    requires x <= y && z >= 0.0
    ensures Times(x, z) <= Times(y, z) && Times(z, x) <= Times(z, y)
  {
    TimesCommute(y - x, z);
    hide Times;
    TimesNonNegative(y - x, z);
    TimesMinus(y, x, z);
  }

  lemma TimesCommute(x: real, y: real)
    ensures Times(x, y) == Times(y, x)
  {}

  lemma TimesAbs(x: real, y: real)
    ensures Abs(Times(x, y)) == Times(Abs(x), Abs(y))
  {
    hide Times;
    TimesMinus(0.0, x, y);
    TimesMinus(0.0, y, x);
    TimesMinus(0.0, y, -x);
    TimesMinus(0.0, x, -y);
    TimesUnit(x);
    TimesUnit(y);
    TimesUnit(-x);
    TimesUnit(-y);
    TimesNonNegative(Abs(x), Abs(y));
  }

  lemma ContributionShrinks(sign: real, strength: real, x: real, y: real, d: real)
    requires -1.0 <= sign <= 1.0 && Abs(x - y) <= d
    ensures Abs(Times(x, Times(sign, strength)) - Times(y, Times(sign, strength))) <= Times(d, Abs(strength))
  {
    hide Times;
    var w := Times(sign, strength);
    TimesAbs(sign, strength);
    TimesOrder(Abs(sign), 1.0, Abs(strength));
    TimesUnit(Abs(strength));
    TimesMinus(x, y, w);
    TimesAbs(x - y, w);
    TimesOrder(Abs(x - y), d, Abs(w));
    TimesOrder(Abs(w), Abs(strength), d);
  }

  /** The signals of two score vectors differ by at most the incoming mass times their distance. */
  lemma SignalsClose(g: Graph, x: seq<real>, y: seq<real>, n: nat, d: real)
    requires g.Accepted() && SignsBounded(g) && |x| == g.Count() && Within(x, y, d) && d >= 0.0
    ensures Abs(Signal(g, x, n) - Signal(g, y, n)) <= d * Den(g, n)
  {
    var k := |g.src|;
    SignalDifference(g, x, y, n);
    forall e | 0 <= e < k ensures Abs(DifferenceTerm(g, x, y, n)(e)) <= ScaledMass(g, n, d)(e) {
      EdgeClose(g, x, y, n, d, e);
    }
    SumAbs(0, k, DifferenceTerm(g, x, y, n), ScaledMass(g, n, d));
    MassScaled(g, n, d);
  }

  lemma SignalDifference(g: Graph, x: seq<real>, y: seq<real>, n: nat)
    ensures Signal(g, x, n) - Signal(g, y, n) == Sum(0, |g.src|, DifferenceTerm(g, x, y, n))
  {
    SumPlus(0, |g.src|, DifferenceTerm(g, x, y, n), SignalTerm(g, y, n), SignalTerm(g, x, n));
  }

  lemma MassScaled(g: Graph, n: nat, d: real)
    requires d >= 0.0
    ensures Sum(0, |g.src|, ScaledMass(g, n, d)) <= d * Den(g, n)
  {
    SumScale(0, |g.src|, d, MassTerm(g, n), ScaledMass(g, n, d));
    MoreMass(d, Sum(0, |g.src|, MassTerm(g, n)), Den(g, n));
  }

  lemma MoreMass(d: real, mass: real, den: real)
    requires d >= 0.0 && mass <= den
    ensures d * mass <= d * den
  {}

  lemma EdgeClose(g: Graph, x: seq<real>, y: seq<real>, n: nat, d: real, e: nat)
    requires g.Accepted() && SignsBounded(g) && |x| == g.Count() && Within(x, y, d) && d >= 0.0 && e < |g.src|
    ensures Abs(DifferenceTerm(g, x, y, n)(e)) <= ScaledMass(g, n, d)(e)
  {
    var sx, sy := SignalTerm(g, x, n)(e), SignalTerm(g, y, n)(e);
    assert DifferenceTerm(g, x, y, n)(e) == sx - sy;
    assert ScaledMass(g, n, d)(e) == Times(d, MassTerm(g, n)(e));
    if g.dst[e] == n {
      assert Abs(x[g.src[e]] - y[g.src[e]]) <= d;
      var w := Times(g.sign[e] as real, g.strength[e]);
      assert sx == Times(x[g.src[e]], w) && sy == Times(y[g.src[e]], w);
      hide Times;
      ContributionShrinks(g.sign[e] as real, g.strength[e], x[g.src[e]], y[g.src[e]], d);
    } else {
      assert MassTerm(g, n)(e) == 0.0 && d * 0.0 == 0.0;
    }
  }

  lemma QuotientClose(p: real, q: real, d: real, den: real)
    requires den >= 1.0 && Abs(p - q) <= d * den
    ensures Abs(0.2 * p / den - 0.2 * q / den) <= 0.2 * d
  {
    var r := (p - q) / den;
    assert r * den == p - q;
    assert 0.2 * p / den - 0.2 * q / den == 0.2 * r;
    if r > d { assert r * den > d * den; }
    if -r > d { assert (-r) * den > d * den; }
  }

  /** One round brings any two score vectors to within 0.84 of their distance. */
  lemma RoundContracts(a: Arithmetic, g: Graph, x: seq<real>, y: seq<real>, d: real)
    requires g.Accepted() && Exact(a) && SignsBounded(g) && |x| == g.Count() && Within(x, y, d) && d >= 0.0
    ensures Within(FullRound(a, g, x), FullRound(a, g, y), 0.84 * d)
  {
    hide Next, Exact, SignsBounded, Abs;
    forall n | 0 <= n < |x| ensures Abs(Next(a, g, x, n) - Next(a, g, y, n)) <= 0.84 * d {
      NodeContracts(a, g, x, y, n, d);
    }
  }

  lemma NodeContracts(a: Arithmetic, g: Graph, x: seq<real>, y: seq<real>, n: nat, d: real)
    requires g.Accepted() && Exact(a) && SignsBounded(g) && |x| == g.Count() && Within(x, y, d) && d >= 0.0 && n < |x|
    ensures Abs(Next(a, g, x, n) - Next(a, g, y, n)) <= 0.84 * d
  {
    hide Signal, Den, SignsBounded, Exact, Abs;
    SignalsClose(g, x, y, n, d);
    DenIsPositive(g, n);
    QuotientClose(Signal(g, x, n), Signal(g, y, n), d, Den(g, n));
    var r, s := 0.2 * Signal(g, x, n) / Den(g, n), 0.2 * Signal(g, y, n) / Den(g, n);
    SquashCloses(a, g.direct[n], r, s, 0.2 * d);
    NextIs(a, g, x, n);
    NextIs(a, g, y, n);
    Blend(x[n], y[n], a.tanh(g.direct[n] + r), a.tanh(g.direct[n] + s), d);
  }

  lemma DenIsPositive(g: Graph, n: nat)
    ensures Den(g, n) >= 1.0
  {
  }

  lemma NextIs(a: Arithmetic, g: Graph, x: seq<real>, n: nat)
    requires g.Accepted() && Exact(a) && |x| == g.Count() && n < |x|
    ensures Den(g, n) >= 1.0
    ensures Next(a, g, x, n) == 0.8 * x[n] + 0.2 * a.tanh(g.direct[n] + 0.2 * Signal(g, x, n) / Den(g, n))
  {
    hide Signal, Abs;
  }

  lemma SquashCloses(a: Arithmetic, base: real, r: real, s: real, d: real)
    requires Exact(a) && Abs(r - s) <= d
    ensures Abs(a.tanh(base + r) - a.tanh(base + s)) <= d
  {
    assert (base + r) - (base + s) == r - s;
    assert Abs(a.tanh(base + r) - a.tanh(base + s)) <= Abs((base + r) - (base + s));
  }

  /** Four fifths of one difference and one fifth of another that is five times smaller. */
  lemma Blend(x: real, y: real, p: real, q: real, d: real)
    requires Abs(x - y) <= d && Abs(p - q) <= 0.2 * d
    ensures Abs(0.8 * x + 0.2 * p - (0.8 * y + 0.2 * q)) <= 0.84 * d
  {
  }

  /** `0.84^rounds * d`. */
  function Shrunk(d: real, rounds: nat): (r: real)
    requires d >= 0.0
    ensures 0.0 <= r <= d
  {
    if rounds == 0 then d else 0.84 * Shrunk(d, rounds - 1)
  }

  /** The error after `rounds` rounds is at most 0.84^rounds of the first one. */
  lemma {:induction false} RoundsConverge(a: Arithmetic, g: Graph, x: seq<real>, fixed: seq<real>, d: real, rounds: nat)
    requires g.Accepted() && Exact(a) && SignsBounded(g) && |x| == |fixed| == g.Count()
    requires FullRound(a, g, fixed) == fixed && Within(x, fixed, d) && d >= 0.0
    ensures Within(Iterate(a, g, x, rounds), fixed, Shrunk(d, rounds))
  {
    hide FullRound, Exact, SignsBounded, Abs;
    if rounds > 0 {
      RoundsConverge(a, g, x, fixed, d, rounds - 1);
      RoundContracts(a, g, Iterate(a, g, x, rounds - 1), fixed, Shrunk(d, rounds - 1));
    }
  }

  /** There is at most one fixed point: a settled signal does not depend on where settling began. */
  lemma FixedPointIsUnique(a: Arithmetic, g: Graph, x: seq<real>, y: seq<real>)
    requires g.Accepted() && Exact(a) && SignsBounded(g) && |x| == |y| == g.Count()
    requires FullRound(a, g, x) == x && FullRound(a, g, y) == y
    ensures x == y
  {
    if x != y {
      var i := LargestDifference(x, y);
      var d := Abs(x[i] - y[i]);
      RoundContracts(a, g, x, y, d);
      assert false;
    }
  }

  /**
   From any start, whether or not there is a fixed point to converge to, the rounds come ever closer to each other: all
   of them after the n-th stay within 6.25 * 0.84^n times the first change.
   */
  lemma RoundsDrawTogether(a: Arithmetic, g: Graph, x: seq<real>, d: real, n: nat, more: nat)
    requires g.Accepted() && Exact(a) && SignsBounded(g) && |x| == g.Count() && d >= 0.0
    requires Within(x, FullRound(a, g, x), d)
    ensures Within(Iterate(a, g, x, n), Iterate(a, g, x, n + more), 6.25 * Shrunk(d, n))
  {
    hide FullRound, Exact, SignsBounded, Iterate;
    DrawnTogether(a, g, x, d, n, more);
  }

  lemma {:induction false} DrawnTogether(a: Arithmetic, g: Graph, x: seq<real>, d: real, n: nat, more: nat)
    requires g.Accepted() && Exact(a) && SignsBounded(g) && |x| == g.Count() && d >= 0.0
    requires Within(x, FullRound(a, g, x), d)
    ensures Shrunk(d, n + more) >= 0.0
    ensures Within(Iterate(a, g, x, n), Iterate(a, g, x, n + more), 6.25 * (Shrunk(d, n) - Shrunk(d, n + more)))
  {
    hide FullRound, Exact, SignsBounded;
    RoundsSlowDown(a, g, x, d, n + more);
    if more > 0 {
      DrawnTogether(a, g, x, d, n, more - 1);
      RoundsSlowDown(a, g, x, d, n + more - 1);
    }
  }

  /** One round changes less than the round before it. */
  lemma {:induction false} RoundsSlowDown(a: Arithmetic, g: Graph, x: seq<real>, d: real, n: nat)
    requires g.Accepted() && Exact(a) && SignsBounded(g) && |x| == g.Count() && d >= 0.0
    requires Within(x, FullRound(a, g, x), d)
    ensures Shrunk(d, n) >= 0.0 && Within(Iterate(a, g, x, n), Iterate(a, g, x, n + 1), Shrunk(d, n))
  {
    hide FullRound, Exact, SignsBounded, Abs;
    if n > 0 {
      RoundsSlowDown(a, g, x, d, n - 1);
      RoundContracts(a, g, Iterate(a, g, x, n - 1), Iterate(a, g, x, n), Shrunk(d, n - 1));
    }
  }

  /** So every tolerance is met: after some number of rounds, no round ever moves a score by more. */
  lemma ToleranceIsMet(a: Arithmetic, g: Graph, x: seq<real>, d: real, tolerance: real) returns (n: nat)
    requires g.Accepted() && Exact(a) && SignsBounded(g) && |x| == g.Count() && d >= 0.0 && tolerance > 0.0
    requires Within(x, FullRound(a, g, x), d)
    ensures forall m: nat :: m >= n ==> Within(Iterate(a, g, x, n), Iterate(a, g, x, m), tolerance)
  {
    hide FullRound, Exact, SignsBounded, Iterate, Shrunk;
    n := Shrinks(d, tolerance / 6.25);
    forall m: nat | m >= n ensures Within(Iterate(a, g, x, n), Iterate(a, g, x, m), tolerance) {
      RoundsDrawTogether(a, g, x, d, n, m - n);
    }
  }

  lemma Shrinks(d: real, bound: real) returns (n: nat)
    requires d >= 0.0 && bound > 0.0
    ensures Shrunk(d, n) <= bound
  {
    hide Shrunk;
    var c := 0.19 * bound;
    n := (d / c).Floor + 1;
    ShrunkBelow(d, n);
    QuotientBelow(d, c, n as real);
    FactorAtMost(Shrunk(d, n), bound, 1.0 + 0.19 * (n as real), d);
  }

  lemma QuotientBelow(d: real, c: real, n: real)
    requires c > 0.0 && n >= d / c
    ensures n * c >= d
  {
    var q := d / c;
    assert q * c == d && (n - q) * c >= 0.0;
  }

  lemma ProductIsPositive(x: real, y: real)
    requires x > 0.0 && y > 0.0
    ensures x * y > 0.0
  {
  }

  lemma FactorAtMost(s: real, b: real, k: real, d: real)
    requires k > 0.0 && s * k <= d <= b * k
    ensures s <= b
  {
    if s > b { ProductIsPositive(s - b, k); }
  }

  lemma {:induction false} ShrunkBelow(d: real, n: nat)
    requires d >= 0.0
    ensures Shrunk(d, n) >= 0.0 && Shrunk(d, n) * (1.0 + 0.19 * (n as real)) <= d
  {
    if n > 0 {
      ShrunkBelow(d, n - 1);
      OneShrink(Shrunk(d, n - 1), (n - 1) as real);
    }
  }

  lemma OneShrink(s: real, k: real)
    requires s >= 0.0 && k >= 0.0
    ensures 0.84 * s * (1.0 + 0.19 * (k + 1.0)) <= s * (1.0 + 0.19 * k)
  {
    assert s * k >= 0.0;
    assert 0.84 * s * (1.0 + 0.19 * (k + 1.0)) == 0.9996 * s + 0.1596 * (s * k);
    assert s * (1.0 + 0.19 * k) == s + 0.19 * (s * k);
  }

  lemma LargestDifference(x: seq<real>, y: seq<real>) returns (i: nat)
    requires |x| == |y| && x != y
    ensures i < |x| && x[i] != y[i] && Within(x, y, Abs(x[i] - y[i]))
  {
    i :| 0 <= i < |x| && x[i] != y[i];
    var j := 0;
    while j < |x|
      invariant 0 <= j <= |x| && i < |x| && x[i] != y[i]
      invariant forall k :: 0 <= k < j ==> Abs(x[k] - y[k]) <= Abs(x[i] - y[i])
    {
      if Abs(x[j] - y[j]) > Abs(x[i] - y[i]) { i := j; }
      j := j + 1;
    }
  }

  /** Scores stay in [-1, 1]. */
  lemma {:induction false} ScoresStayBounded(a: Arithmetic, g: Graph, x: seq<real>, rounds: nat)
    requires g.Accepted() && Exact(a) && |x| == g.Count()
    requires forall i :: 0 <= i < |x| ==> Abs(x[i]) <= 1.0
    ensures forall i :: 0 <= i < |x| ==> Abs(Iterate(a, g, x, rounds)[i]) <= 1.0
  {
    if rounds > 0 {
      ScoresStayBounded(a, g, x, rounds - 1);
      var before := Iterate(a, g, x, rounds - 1);
      forall n | 0 <= n < |x| ensures Abs(Next(a, g, before, n)) <= 1.0 {
        var p := g.direct[n] + 0.2 * Signal(g, before, n) / Den(g, n);
        assert Abs(a.tanh(p)) <= 1.0 && Abs(before[n]) <= 1.0;
      }
    }
  }
}
