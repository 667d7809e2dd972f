/**
 The modularity local moves of `fast_regions.py`: the sequential rule, the potential it climbs and the
 bound that potential puts on every run of it.
 */
module FastRegions {
  import opened Sums

  /** A CSR adjacency: row `u` holds the entries `offsets[u] .. offsets[u + 1]`. */
  datatype Csr = Csr(offsets: seq<nat>, neighbors: seq<nat>, weights: seq<real>) {
    ghost predicate Valid() {
      && |offsets| >= 1 && |neighbors| == |weights|
      && (forall u {:trigger offsets[u]} :: 0 <= u < Size() ==> offsets[u] <= offsets[u + 1] <= |neighbors|)
      && (forall e :: 0 <= e < |neighbors| ==> neighbors[e] < Size())
    }

    function Size(): nat requires |offsets| >= 1 { |offsets| - 1 }
  }

  // ----- weights, groups and the potential -----

  /** Entry `e` counts when it leads from `x` to another node that `into` accepts. */
  ghost function EntryTerm(g: Csr, x: nat, into: int -> bool): int -> real {
    e => if 0 <= e < |g.neighbors| && e < |g.weights| && g.neighbors[e] != x && into(g.neighbors[e]) then g.weights[e]
      else 0.0
  }

  ghost function RowSum(g: Csr, x: nat, into: int -> bool): real
    requires g.Valid() && x < g.Size()
  {
    Sum(g.offsets[x], g.offsets[x + 1], EntryTerm(g, x, into))
  }

  ghost function InGroup(labels: seq<nat>, group: nat): int -> bool {
    v => 0 <= v < |labels| && labels[v] == group
  }

  ghost function Only(v: int): int -> bool { u => u == v }

  /** The weight from `x` into a group, itself left out. */
  ghost function Into(g: Csr, labels: seq<nat>, x: nat, group: nat): real
    requires g.Valid() && x < g.Size()
  {
    RowSum(g, x, InGroup(labels, group))
  }

  ghost function Weight(g: Csr, x: nat, v: nat): real
    requires g.Valid() && x < g.Size()
  {
    RowSum(g, x, Only(v))
  }

  ghost predicate Symmetric(g: Csr)
    requires g.Valid()
  {
    forall u, v :: 0 <= u < g.Size() && 0 <= v < g.Size() ==> Weight(g, u, v) == Weight(g, v, u)
  }

  ghost function EntryWeight(g: Csr): int -> real {
    e => if 0 <= e < |g.weights| then g.weights[e] else 0.0
  }

  /** `_degree`: the whole row, self loops included. */
  ghost function Degree(g: Csr, x: nat): real
    requires g.Valid() && x < g.Size()
  {
    Sum(g.offsets[x], g.offsets[x + 1], EntryWeight(g))
  }

  ghost function DegreeOf(g: Csr): int -> real
    requires g.Valid()
  {
    u => if 0 <= u < g.Size() then Degree(g, u) else 0.0
  }

  ghost function Mass(g: Csr): real
    requires g.Valid()
  {
    Sum(0, g.Size(), DegreeOf(g))
  }

  ghost function MemberDegree(g: Csr, labels: seq<nat>, group: nat): int -> real
    requires g.Valid()
  {
    u => if 0 <= u < g.Size() && u < |labels| && labels[u] == group then Degree(g, u) else 0.0
  }

  /** `totals[group]`: the degrees of the group's members. */
  ghost function Total(g: Csr, labels: seq<nat>, group: nat): real
    requires g.Valid()
  {
    Sum(0, g.Size(), MemberDegree(g, labels, group))
  }

  ghost function OwnInto(g: Csr, labels: seq<nat>): int -> real
    requires g.Valid() && |labels| == g.Size()
  {
    u => if 0 <= u < g.Size() then Into(g, labels, u, labels[u]) else 0.0
  }

  /** Weight inside groups, over ordered pairs of distinct nodes. */
  ghost function Inside(g: Csr, labels: seq<nat>): real
    requires g.Valid() && |labels| == g.Size()
  {
    Sum(0, g.Size(), OwnInto(g, labels))
  }

  function Square(t: real): real { t * t }

  /** The weight degree alone would explain: `degree * total / mass`. */
  function Expected(degree: real, total: real, mass: real): real
    requires mass != 0.0
  {
    degree * total / mass
  }

  ghost function SquareTotal(g: Csr, labels: seq<nat>): int -> real
    requires g.Valid()
  {
    c => if c >= 0 then Square(Total(g, labels, c)) else 0.0
  }

  ghost function Squares(g: Csr, labels: seq<nat>, groups: nat): real
    requires g.Valid()
  {
    Sum(0, groups, SquareTotal(g, labels))
  }

  /** The potential: inside weight minus what degree alone would explain. */
  ghost function Potential(g: Csr, labels: seq<nat>, groups: nat): real
    requires g.Valid() && |labels| == g.Size() && Mass(g) != 0.0
  {
    Inside(g, labels) - Expected(1.0, Squares(g, labels, groups), Mass(g))
  }

  /** The score of a group for node `x`, with `x` taken out of its own group first. */
  ghost function Score(g: Csr, labels: seq<nat>, x: nat, group: nat): real
    requires g.Valid() && |labels| == g.Size() && x < g.Size() && Mass(g) != 0.0
  {
    Into(g, labels, x, group)
      - Expected(Degree(g, x), Total(g, labels, group) - (if labels[x] == group then Degree(g, x) else 0.0), Mass(g))
  }

  // ----- what one move does to the inside weight -----

  ghost function EntriesTo(g: Csr, x: nat, lo: int, hi: int, v: int): real {
    Sum(lo, hi, EntryTerm(g, x, Only(v)))
  }

  /** Weight into a set, summed neighbour by neighbour instead of entry by entry. */
  ghost function PerNeighbor(g: Csr, x: nat, lo: int, hi: int, into: int -> bool): int -> real
  {
    v => if v != x && into(v) then EntriesTo(g, x, lo, hi, v) else 0.0
  }

  lemma {:induction false} RegroupEntries(g: Csr, x: nat, lo: int, hi: int, into: int -> bool)
    requires g.Valid() && 0 <= lo <= hi <= |g.neighbors|
    ensures Sum(lo, hi, EntryTerm(g, x, into)) == Sum(0, g.Size(), PerNeighbor(g, x, lo, hi, into))
    decreases hi - lo
  {
    var n := g.Size();
    if lo == hi {
      forall v | 0 <= v < n ensures PerNeighbor(g, x, lo, hi, into)(v) == 0.0 {
        assert EntriesTo(g, x, lo, hi, v) == 0.0;
      }
      SumZero(0, n, PerNeighbor(g, x, lo, hi, into));
    } else {
      RegroupEntries(g, x, lo, hi - 1, into);
      var to := g.neighbors[hi - 1];
      var before, after := PerNeighbor(g, x, lo, hi - 1, into), PerNeighbor(g, x, lo, hi, into);
      forall v | 0 <= v < n && v != to ensures before(v) == after(v) {
        assert EntriesTo(g, x, lo, hi, v) == EntriesTo(g, x, lo, hi - 1, v) + EntryTerm(g, x, Only(v))(hi - 1);
      }
      SumChangeOne(0, n, to, before, after);
      assert EntriesTo(g, x, lo, hi, to) == EntriesTo(g, x, lo, hi - 1, to) + EntryTerm(g, x, Only(to))(hi - 1);
    }
  }

  /** The weight the others have into `x`, group by group, equals the weight of `x` into the group. */
  ghost function TowardsTerm(g: Csr, labels: seq<nat>, x: nat, group: nat): int -> real
    requires g.Valid() && |labels| == g.Size()
  {
    u => if 0 <= u < g.Size() && u != x && labels[u] == group then Weight(g, u, x) else 0.0
  }

  lemma TowardsEqualsInto(g: Csr, labels: seq<nat>, x: nat, group: nat)
    requires g.Valid() && Symmetric(g) && |labels| == g.Size() && x < g.Size()
    ensures Sum(0, g.Size(), TowardsTerm(g, labels, x, group)) == Into(g, labels, x, group)
  {
    var lo, hi := g.offsets[x], g.offsets[x + 1];
    RegroupEntries(g, x, lo, hi, InGroup(labels, group));
    var towards, per := TowardsTerm(g, labels, x, group), PerNeighbor(g, x, lo, hi, InGroup(labels, group));
    forall v | 0 <= v < g.Size() ensures towards(v) == per(v) {
      assert Weight(g, x, v) == EntriesTo(g, x, lo, hi, v);
    }
    SumSame(0, g.Size(), towards, per);
  }

  /** Relabelling `x` changes what `u` has into a group by `u`'s weight to `x`, for every entry of `u`'s row. */
  lemma {:induction false} RelabelEntries(g: Csr, labels: seq<nat>, x: nat, b: nat, u: nat, group: nat, lo: int,
      hi: int)
    requires g.Valid() && |labels| == g.Size() && x < g.Size() && u < g.Size()
    requires 0 <= lo <= hi <= |g.neighbors|
    ensures Sum(lo, hi, EntryTerm(g, u, InGroup(labels[x := b], group)))
         == Sum(lo, hi, EntryTerm(g, u, InGroup(labels, group)))
            + (if b == group then Sum(lo, hi, EntryTerm(g, u, Only(x))) else 0.0)
            - (if labels[x] == group then Sum(lo, hi, EntryTerm(g, u, Only(x))) else 0.0)
    decreases hi - lo
  {
    if lo < hi { RelabelEntries(g, labels, x, b, u, group, lo, hi - 1); }
  }

  lemma {:induction false} OwnEntriesUnmoved(g: Csr, labels: seq<nat>, x: nat, b: nat, group: nat, lo: int, hi: int)
    requires g.Valid() && |labels| == g.Size() && x < g.Size() && 0 <= lo <= hi <= |g.neighbors|
    ensures Sum(lo, hi, EntryTerm(g, x, InGroup(labels[x := b], group)))
            == Sum(lo, hi, EntryTerm(g, x, InGroup(labels, group)))
    decreases hi - lo
  {
    if lo < hi { OwnEntriesUnmoved(g, labels, x, b, group, lo, hi - 1); }
  }

  lemma OtherRowMoved(g: Csr, labels: seq<nat>, x: nat, b: nat, u: nat)
    requires g.Valid() && |labels| == g.Size() && x < g.Size() && u < g.Size() && u != x && b != labels[x]
    ensures OwnInto(g, labels[x := b])(u) == OwnInto(g, labels)(u)
              + TowardsTerm(g, labels, x, b)(u) - TowardsTerm(g, labels, x, labels[x])(u)
  {
    RelabelEntries(g, labels, x, b, u, labels[u], g.offsets[u], g.offsets[u + 1]);
    assert Into(g, labels[x := b], u, labels[u]) == Into(g, labels, u, labels[u])
      + (if b == labels[u] then Weight(g, u, x) else 0.0) - (if labels[x] == labels[u] then Weight(g, u, x) else 0.0);
  }

  lemma OwnRowMoved(g: Csr, labels: seq<nat>, x: nat, b: nat)
    requires g.Valid() && |labels| == g.Size() && x < g.Size()
    ensures OwnInto(g, labels[x := b])(x)
            == OwnInto(g, labels)(x) + Into(g, labels, x, b) - Into(g, labels, x, labels[x])
  {
    OwnEntriesUnmoved(g, labels, x, b, b, g.offsets[x], g.offsets[x + 1]);
    assert Into(g, labels[x := b], x, b) == Into(g, labels, x, b);
  }

  lemma MoveInside(g: Csr, labels: seq<nat>, x: nat, b: nat)
    requires g.Valid() && Symmetric(g) && |labels| == g.Size() && x < g.Size() && b != labels[x]
    ensures Inside(g, labels[x := b])
         == Inside(g, labels) + 2.0 * (Into(g, labels, x, b) - Into(g, labels, x, labels[x]))
  {
    var n, a := g.Size(), labels[x];
    var before, after := OwnInto(g, labels), OwnInto(g, labels[x := b]);
    var gain := (u: int) => if u == x then Into(g, labels, x, b) - Into(g, labels, x, a)
                            else TowardsTerm(g, labels, x, b)(u) - TowardsTerm(g, labels, x, a)(u);
    forall u | 0 <= u < n ensures after(u) == before(u) + gain(u) {
      if u == x {
        OwnRowMoved(g, labels, x, b);
      } else {
        OtherRowMoved(g, labels, x, b, u);
      }
    }
    SumPlus(0, n, before, gain, after);
    var towards := (u: int) => TowardsTerm(g, labels, x, b)(u) - TowardsTerm(g, labels, x, a)(u);
    SumChangeOne(0, n, x, towards, gain);
    SumPlus(0, n, TowardsTerm(g, labels, x, a), towards, TowardsTerm(g, labels, x, b));
    TowardsEqualsInto(g, labels, x, a);
    TowardsEqualsInto(g, labels, x, b);
  }

  // ----- what one move does to the totals -----

  lemma MoveTotal(g: Csr, labels: seq<nat>, x: nat, b: nat, group: nat)
    requires g.Valid() && |labels| == g.Size() && x < g.Size() && b != labels[x]
    ensures Total(g, labels[x := b], group) == Total(g, labels, group)
              - (if group == labels[x] then Degree(g, x) else 0.0) + (if group == b then Degree(g, x) else 0.0)
  {
    SumChangeOne(0, g.Size(), x, MemberDegree(g, labels, group), MemberDegree(g, labels[x := b], group));
  }

  /** How the sum of squares changes when degree `d` leaves a total of `ta` for one of `tb`. */
  function SquaresChange(d: real, ta: real, tb: real): real {
    Square(ta - d) - Square(ta) + Square(tb + d) - Square(tb)
  }

  lemma MoveSquares(g: Csr, labels: seq<nat>, x: nat, b: nat, groups: nat)
    requires g.Valid() && |labels| == g.Size() && x < g.Size()
    requires b != labels[x] && b < groups && labels[x] < groups
    ensures Squares(g, labels[x := b], groups) == Squares(g, labels, groups)
              + SquaresChange(Degree(g, x), Total(g, labels, labels[x]), Total(g, labels, b))
  {
    hide Square;
    var a := labels[x];
    var before, after := SquareTotal(g, labels), SquareTotal(g, labels[x := b]);
    forall c | 0 <= c < groups ensures c != a && c != b ==> after(c) == before(c) { MoveTotal(g, labels, x, b, c); }
    var middle := (c: int) => if c == a then after(a) else before(c);
    SumChangeOne(0, groups, a, before, middle);
    SumChangeOne(0, groups, b, middle, after);
    MoveTotal(g, labels, x, b, a);
    MoveTotal(g, labels, x, b, b);
  }

  /** Moving a node raises the potential by exactly twice the difference of the two scores. */
  lemma MoveGain(g: Csr, labels: seq<nat>, x: nat, b: nat, groups: nat)
    requires g.Valid() && Symmetric(g) && |labels| == g.Size() && x < g.Size() && Mass(g) != 0.0
    requires b < groups && labels[x] < groups
    ensures Potential(g, labels[x := b], groups) ==
              Potential(g, labels, groups) + 2.0 * (Score(g, labels, x, b) - Score(g, labels, x, labels[x]))
  {
    hide Expected, SquaresChange;
    var a, d := labels[x], Degree(g, x);
    if b == a {
      assert labels[x := b] == labels;
    } else {
      MoveInside(g, labels, x, b);
      MoveSquares(g, labels, x, b, groups);
      GainAlgebra(Squares(g, labels, groups), d, Total(g, labels, a), Total(g, labels, b), Mass(g));
    }
  }

  lemma GainAlgebra(squares: real, d: real, ta: real, tb: real, m: real)
    requires m != 0.0
    ensures Expected(1.0, squares + SquaresChange(d, ta, tb), m)
         == Expected(1.0, squares, m) + 2.0 * (Expected(d, tb, m) - Expected(d, ta - d, m))
  {
    assert SquaresChange(d, ta, tb) == 2.0 * (d * tb) - 2.0 * (d * (ta - d));
    DivideSum(squares, 2.0 * (d * tb), -2.0 * (d * (ta - d)), m);
    DivideDouble(d * tb, m);
    DivideDouble(-(d * (ta - d)), m);
    DivideDouble(d * (ta - d), m);
  }

  lemma DivideSum(a: real, b: real, c: real, m: real)
    requires m != 0.0
    ensures (a + b + c) / m == a / m + b / m + c / m
  {}

  lemma DivideDouble(a: real, m: real)
    requires m != 0.0
    ensures (2.0 * a) / m == 2.0 * (a / m) && (-2.0 * a) / m == -2.0 * (a / m)
  {}

  // ----- the potential is bounded -----

  ghost predicate Positive(g: Csr) { forall e :: 0 <= e < |g.weights| ==> g.weights[e] >= 0.0 }

  ghost function PartTotal(g: Csr, labels: seq<nat>, group: nat, k: nat): real
    requires g.Valid()
  {
    Sum(0, k, MemberDegree(g, labels, group))
  }

  ghost function PartTotals(g: Csr, labels: seq<nat>, k: nat): int -> real
    requires g.Valid()
  {
    c => if c >= 0 then PartTotal(g, labels, c, k) else 0.0
  }

  /** The group totals add up to the mass. */
  lemma {:induction false} TotalsAddUp(g: Csr, labels: seq<nat>, groups: nat, k: nat)
    requires g.Valid() && |labels| == g.Size() && k <= g.Size()
    requires forall u :: 0 <= u < |labels| ==> labels[u] < groups
    ensures Sum(0, groups, PartTotals(g, labels, k)) == Sum(0, k, DegreeOf(g))
  {
    if k == 0 {
      forall c | 0 <= c < groups ensures PartTotals(g, labels, 0)(c) == 0.0 {
        assert PartTotal(g, labels, c, 0) == 0.0;
      }
      SumZero(0, groups, PartTotals(g, labels, 0));
    } else {
      TotalsAddUp(g, labels, groups, k - 1);
      var before, after := PartTotals(g, labels, k - 1), PartTotals(g, labels, k);
      forall c | 0 <= c < groups ensures after(c) == before(c) + MemberDegree(g, labels, c)(k - 1) {
        assert PartTotal(g, labels, c, k) == PartTotal(g, labels, c, k - 1) + MemberDegree(g, labels, c)(k - 1);
      }
      SumChangeOne(0, groups, labels[k - 1], before, after);
    }
  }

  lemma {:induction false} SquaresOfParts(lo: int, hi: int, f: int -> real, sq: int -> real)
    requires forall i :: lo <= i < hi ==> f(i) >= 0.0 && sq(i) == Square(f(i))
    ensures 0.0 <= Sum(lo, hi, f) && 0.0 <= Sum(lo, hi, sq) <= Square(Sum(lo, hi, f))
    decreases hi - lo
  {
    if lo < hi {
      SquaresOfParts(lo, hi - 1, f, sq);
      SquareOfSum(Sum(lo, hi - 1, f), f(hi - 1));
    }
  }

  lemma SquareOfSum(a: real, b: real)
    requires a >= 0.0 && b >= 0.0
    ensures Square(a) + Square(b) <= Square(a + b) && Square(b) >= 0.0
  {
    assert Square(a + b) == Square(a) + Square(b) + 2.0 * (a * b);
  }

  lemma DegreesBoundInto(g: Csr, labels: seq<nat>, x: nat, group: nat)
    requires g.Valid() && Positive(g) && |labels| == g.Size() && x < g.Size()
    ensures 0.0 <= Into(g, labels, x, group) <= Degree(g, x)
  {
    var lo, hi := g.offsets[x], g.offsets[x + 1];
    SumNonNegative(lo, hi, EntryTerm(g, x, InGroup(labels, group)));
    SumAtMost(lo, hi, EntryTerm(g, x, InGroup(labels, group)), EntryWeight(g));
  }

  /** Over every labelling the potential lies between minus the mass and the mass. */
  lemma PotentialRange(g: Csr, labels: seq<nat>, groups: nat)
    requires g.Valid() && Positive(g) && |labels| == g.Size() && Mass(g) > 0.0
    requires forall u :: 0 <= u < |labels| ==> labels[u] < groups
    ensures -Mass(g) <= Potential(g, labels, groups) <= Mass(g)
  {
    var n, m := g.Size(), Mass(g);
    forall u | 0 <= u < n ensures 0.0 <= OwnInto(g, labels)(u) <= DegreeOf(g)(u) {
      DegreesBoundInto(g, labels, u, labels[u]);
    }
    SumNonNegative(0, n, OwnInto(g, labels));
    SumAtMost(0, n, OwnInto(g, labels), DegreeOf(g));
    TotalsAddUp(g, labels, groups, n);
    forall c | 0 <= c < groups
      ensures PartTotals(g, labels, n)(c) >= 0.0 && SquareTotal(g, labels)(c) == Square(PartTotals(g, labels, n)(c))
    {
      TotalNonNegative(g, labels, c);
      assert PartTotal(g, labels, c, n) == Total(g, labels, c);
    }
    SquaresOfParts(0, groups, PartTotals(g, labels, n), SquareTotal(g, labels));
    ShareOfMass(Squares(g, labels, groups), m);
  }

  lemma TotalNonNegative(g: Csr, labels: seq<nat>, group: nat)
    requires g.Valid() && Positive(g) && |labels| == g.Size()
    ensures Total(g, labels, group) >= 0.0
  {
    forall u | 0 <= u < g.Size() ensures Degree(g, u) >= 0.0 { DegreesBoundInto(g, labels, u, group); }
    SumNonNegative(0, g.Size(), MemberDegree(g, labels, group));
  }

  lemma ShareOfMass(squares: real, m: real)
    requires m > 0.0 && 0.0 <= squares <= Square(m)
    ensures 0.0 <= Expected(1.0, squares, m) <= m
  {
    assert squares / m <= (m * m) / m;
  }

  // ----- the sequential rule -----

  /** `into`: the weight of `node` into each group a neighbour of it is in. */
  ghost predicate IntoOf(g: Csr, labels: seq<nat>, node: nat, into: map<nat, real>)
    requires g.Valid() && node < g.Size() && |labels| == g.Size()
  {
    && (forall c :: c in into ==> into[c] == Into(g, labels, node, c))
    && (forall c :: c in into <==> NeighborIn(g, labels, node, c))
  }

  ghost predicate NeighborIn(g: Csr, labels: seq<nat>, node: nat, group: nat)
    requires g.Valid() && node < g.Size() && |labels| == g.Size()
  {
    exists e :: g.offsets[node] <= e < g.offsets[node + 1] && g.neighbors[e] != node && labels[g.neighbors[e]] == group
  }

  lemma {:induction false} AbsentGroupHasNoWeight(g: Csr, labels: seq<nat>, x: nat, group: nat, lo: int, hi: int)
    requires g.Valid() && x < g.Size() && |labels| == g.Size() && 0 <= lo <= hi <= |g.neighbors|
    requires forall e :: lo <= e < hi && g.neighbors[e] != x ==> labels[g.neighbors[e]] != group
    ensures Sum(lo, hi, EntryTerm(g, x, InGroup(labels, group))) == 0.0
    decreases hi - lo
  {
    if lo < hi { AbsentGroupHasNoWeight(g, labels, x, group, lo, hi - 1); }
  }

  method NeighborGroups(g: Csr, labels: array<nat>, node: nat) returns (into: map<nat, real>)
    requires g.Valid() && node < g.Size() && labels.Length == g.Size()
    ensures IntoOf(g, labels[..], node, into)
  {
    hide Sum, EntryTerm, InGroup;
    into := map[];
    var lo, hi := g.offsets[node], g.offsets[node + 1];
    var e := lo;
    while e < hi
      invariant lo <= e <= hi && IntoUpTo(g, labels[..], node, e, into)
    {
      var neighbor := g.neighbors[e];
      ghost var before := into;
      if neighbor != node {
        var group := labels[neighbor];
        into := into[group := (if group in into then into[group] else 0.0) + g.weights[e]];
      }
      OneMoreNeighbor(g, labels[..], node, e, before, into);
      e := e + 1;
    }
  }

  /** `into`, for the entries of the row before `e`. */
  ghost predicate IntoUpTo(g: Csr, labels: seq<nat>, node: nat, e: int, into: map<nat, real>)
    requires g.Valid() && node < g.Size() && |labels| == g.Size() && g.offsets[node] <= e <= g.offsets[node + 1]
  {
    && (forall c :: c in into ==> into[c] == Sum(g.offsets[node], e, EntryTerm(g, node, InGroup(labels, c))))
    && (forall c :: c in into <==> NeighborBefore(g, labels, node, e, c))
  }

  ghost predicate NeighborBefore(g: Csr, labels: seq<nat>, node: nat, e: int, group: nat)
    requires g.Valid() && node < g.Size() && |labels| == g.Size() && g.offsets[node] <= e <= g.offsets[node + 1]
  {
    exists k :: g.offsets[node] <= k < e && g.neighbors[k] != node && labels[g.neighbors[k]] == group
  }

  lemma OneMoreNeighbor(g: Csr, labels: seq<nat>, node: nat, e: nat, before: map<nat, real>, into: map<nat, real>)
    requires g.Valid() && node < g.Size() && |labels| == g.Size() && g.offsets[node] <= e < g.offsets[node + 1]
    requires IntoUpTo(g, labels, node, e, before)
    requires into == if g.neighbors[e] == node then before
                     else var c := labels[g.neighbors[e]];
                          before[c := (if c in before then before[c] else 0.0) + g.weights[e]]
    ensures IntoUpTo(g, labels, node, e + 1, into)
  {
    hide NeighborBefore;
    forall c ensures NeighborBefore(g, labels, node, e + 1, c) <==>
                       NeighborBefore(g, labels, node, e, c) || (g.neighbors[e] != node && labels[g.neighbors[e]] == c)
    {
      NeighborHere(g, labels, node, e, c);
    }
    forall c | c in into ensures into[c] == Sum(g.offsets[node], e + 1, EntryTerm(g, node, InGroup(labels, c))) {
      if c !in before { NotBefore(g, labels, node, e, c); }
    }
  }

  lemma NeighborHere(g: Csr, labels: seq<nat>, node: nat, e: nat, c: nat)
    requires g.Valid() && node < g.Size() && |labels| == g.Size() && g.offsets[node] <= e < g.offsets[node + 1]
    ensures NeighborBefore(g, labels, node, e + 1, c) <==>
              NeighborBefore(g, labels, node, e, c) || (g.neighbors[e] != node && labels[g.neighbors[e]] == c)
  {
  }

  lemma NotBefore(g: Csr, labels: seq<nat>, node: nat, e: nat, c: nat)
    requires g.Valid() && node < g.Size() && |labels| == g.Size() && g.offsets[node] <= e <= g.offsets[node + 1]
    requires !NeighborBefore(g, labels, node, e, c)
    ensures Sum(g.offsets[node], e, EntryTerm(g, node, InGroup(labels, c))) == 0.0
  {
    AbsentGroupHasNoWeight(g, labels, node, c, g.offsets[node], e);
  }

  /** `score(group)` of the rule, from `into` and the totals with the node taken out of its group. */
  function ScoreOf(into: map<nat, real>, degree: real, total: real, mass: real, group: nat): real
    requires mass != 0.0
  {
    (if group in into then into[group] else 0.0) - Expected(degree, total, mass)
  }

  /** The ascending scan: a group wins only if it beats the best so far by more than the tolerance. */
  method BestGroup(into: map<nat, real>, degree: real, totals: array<real>, mass: real, tolerance: real, home: nat)
    returns (best: nat)
    requires mass != 0.0 && tolerance >= 0.0 && home < totals.Length
    requires forall c :: c in into ==> c < totals.Length
    ensures best < totals.Length && (best == home || best in into)
    ensures best != home ==>
      ScoreOf(into, degree, totals[best], mass, best) > ScoreOf(into, degree, totals[home], mass, home) + tolerance
    ensures forall c :: c in into ==>
      ScoreOf(into, degree, totals[c], mass, c) <= ScoreOf(into, degree, totals[best], mass, best) + tolerance
  {
    hide ScoreOf;
    best := home;
    var bestScore := ScoreOf(into, degree, totals[home], mass, home);
    var group := 0;
    while group < totals.Length
      invariant 0 <= group <= totals.Length
      invariant best < totals.Length && bestScore == ScoreOf(into, degree, totals[best], mass, best)
      invariant best == home || best in into
      invariant bestScore >= ScoreOf(into, degree, totals[home], mass, home)
      invariant best != home ==> bestScore > ScoreOf(into, degree, totals[home], mass, home) + tolerance
      invariant forall c :: c in into && c < group ==>
                  ScoreOf(into, degree, totals[c], mass, c) <= bestScore + tolerance
    {
      if group in into {
        var candidate := ScoreOf(into, degree, totals[group], mass, group);
        if candidate > bestScore + tolerance { best, bestScore := group, candidate; }
      }
      group := group + 1;
    }
  }

  ghost predicate Graph(g: Csr, degree: seq<real>, mass: real) {
    && g.Valid() && Symmetric(g) && |degree| == g.Size()
    && (forall u :: 0 <= u < g.Size() ==> degree[u] == Degree(g, u))
    && mass == Mass(g) && mass > 0.0
  }

  ghost predicate TotalsMatch(g: Csr, labels: seq<nat>, totals: seq<real>)
    requires g.Valid()
  {
    forall c :: 0 <= c < |totals| ==> totals[c] == Total(g, labels, c)
  }

  ghost predicate LabelsBelow(labels: seq<nat>, groups: nat) { forall u :: 0 <= u < |labels| ==> labels[u] < groups }

  /** `np.bincount(labels, weights=degree, minlength=len(labels))`. */
  method GroupTotals(g: Csr, labels: array<nat>, degree: seq<real>, mass: real) returns (totals: array<real>)
    requires Graph(g, degree, mass) && labels.Length == g.Size()
    ensures fresh(totals) && LabelsBelow(labels[..], totals.Length) && TotalsMatch(g, labels[..], totals[..])
  {
    var groups := labels.Length;
    var u := 0;
    while u < labels.Length
      invariant 0 <= u <= labels.Length && groups >= labels.Length
      invariant forall k :: 0 <= k < u ==> labels[k] < groups
    {
      if labels[u] >= groups { groups := labels[u] + 1; }
      u := u + 1;
    }
    totals := new real[groups](_ => 0.0);
    u := 0;
    while u < labels.Length
      invariant 0 <= u <= labels.Length
      invariant forall c :: 0 <= c < groups ==> totals[c] == PartTotal(g, labels[..], c, u)
    {
      totals[labels[u]] := totals[labels[u]] + degree[u];
      forall c | 0 <= c < groups ensures totals[c] == PartTotal(g, labels[..], c, u + 1) {
        assert PartTotal(g, labels[..], c, u + 1) == PartTotal(g, labels[..], c, u) + MemberDegree(g, labels[..], c)(u);
      }
      u := u + 1;
    }
    forall c | 0 <= c < groups ensures totals[c] == Total(g, labels[..], c) {
      assert PartTotal(g, labels[..], c, g.Size()) == Total(g, labels[..], c);
    }
  }

  /** The rule's score, read off `into` and the reduced totals, is the node's score of the group. */
  lemma ScoreIsScore(g: Csr, labels: seq<nat>, node: nat, into: map<nat, real>, total: real, group: nat, degree: real,
      mass: real)
    requires g.Valid() && |labels| == g.Size() && node < g.Size() && mass == Mass(g) && mass != 0.0
    requires IntoOf(g, labels, node, into) && degree == Degree(g, node)
    requires total == Total(g, labels, group) - (if labels[node] == group then degree else 0.0)
    ensures ScoreOf(into, degree, total, mass, group) == Score(g, labels, node, group)
  {
    if group !in into {
      assert !NeighborIn(g, labels, node, group);
      AbsentGroupHasNoWeight(g, labels, node, group, g.offsets[node], g.offsets[node + 1]);
    }
  }

  lemma IntoGroups(g: Csr, labels: seq<nat>, node: nat, into: map<nat, real>)
    requires g.Valid() && node < g.Size() && |labels| == g.Size() && IntoOf(g, labels, node, into)
    ensures forall c :: c in into <==> NeighborIn(g, labels, node, c)
    ensures forall groups: nat, c :: c in into && LabelsBelow(labels, groups) ==> c < groups
  {
    hide Into;
    forall groups: nat, c | c in into && LabelsBelow(labels, groups) ensures c < groups {
      assert NeighborIn(g, labels, node, c);
    }
  }

  function MovedTotals(totals: seq<real>, from: nat, to: nat, degree: real): (r: seq<real>)
    requires from < |totals| && to < |totals|
    ensures |r| == |totals|
  {
    var without := totals[from := totals[from] - degree];
    without[to := without[to] + degree]
  }

  lemma TotalsFollow(g: Csr, labels: seq<nat>, node: nat, to: nat, totals: seq<real>, degree: real)
    requires g.Valid() && |labels| == g.Size() && node < g.Size() && degree == Degree(g, node)
    requires labels[node] < |totals| && to < |totals| && TotalsMatch(g, labels, totals)
    ensures TotalsMatch(g, labels[node := to], MovedTotals(totals, labels[node], to, degree))
  {
    hide Total, Degree;
    var after := MovedTotals(totals, labels[node], to, degree);
    forall c | 0 <= c < |after| ensures after[c] == Total(g, labels[node := to], c) {
      if to == labels[node] { assert labels[node := to] == labels; } else { MoveTotal(g, labels, node, to, c); }
    }
  }

  /** One node of the sequential rule. */
  method MoveNode(g: Csr, node: nat, labels: array<nat>, totals: array<real>, degree: seq<real>, mass: real,
      tolerance: real)
    returns (moved: bool)
    requires Graph(g, degree, mass) && labels.Length == g.Size() && node < g.Size() && tolerance >= 0.0
    requires LabelsBelow(labels[..], totals.Length) && TotalsMatch(g, labels[..], totals[..])
    modifies labels, totals
    ensures LabelsBelow(labels[..], totals.Length) && TotalsMatch(g, labels[..], totals[..])
    ensures moved <==> labels[node] != old(labels[node])
    ensures labels[..] == old(labels[..])[node := labels[node]]
    ensures Potential(g, labels[..], totals.Length) == Potential(g, old(labels[..]), totals.Length)
              + 2.0 * (Score(g, old(labels[..]), node, labels[node]) - Score(g, old(labels[..]), node,
                old(labels[node])))
    ensures moved ==> NeighborIn(g, old(labels[..]), node, labels[node])
    ensures moved ==>
      Score(g, old(labels[..]), node, labels[node]) > Score(g, old(labels[..]), node, old(labels[node])) + tolerance
    ensures forall c :: NeighborIn(g, old(labels[..]), node, c) ==>
              Score(g, old(labels[..]), node, c) <= Score(g, old(labels[..]), node, labels[node]) + tolerance
  {
    hide Total, Degree, Potential, Symmetric, Score, Mass, IntoOf, NeighborIn, Expected;
    ghost var was := labels[..];
    var into := NeighborGroups(g, labels, node);
    IntoGroups(g, was, node, into);
    moved := false;
    if into == map[] {
      MoveGain(g, was, node, was[node], totals.Length);
      assert labels[..] == was[node := was[node]];
      return;
    }
    var before := labels[node];
    ghost var sums := totals[..];
    totals[before] := totals[before] - degree[node];
    forall c | 0 <= c < totals.Length
      ensures ScoreOf(into, degree[node], totals[c], mass, c) == Score(g, was, node, c)
    {
      assert sums[c] == Total(g, was, c);
      ScoreIsScore(g, was, node, into, totals[c], c, degree[node], mass);
    }
    var best := BestGroup(into, degree[node], totals, mass, tolerance, before);
    totals[best] := totals[best] + degree[node];
    MoveGain(g, was, node, best, totals.Length);
    if best != before {
      labels[node] := best;
      moved := true;
    }
    assert labels[..] == was[node := best];
    assert totals[..] == MovedTotals(sums, before, best, degree[node]);
    TotalsFollow(g, was, node, best, sums, degree[node]);
  }

  /** Groups beyond every label carry no total, so the potential does not depend on how many are counted. */
  lemma {:induction false} SpareGroups(g: Csr, labels: seq<nat>, groups: nat, more: nat)
    requires g.Valid() && |labels| == g.Size() && LabelsBelow(labels, groups) && groups <= more
    ensures Squares(g, labels, more) == Squares(g, labels, groups)
    decreases more - groups
  {
    if groups < more {
      SpareGroups(g, labels, groups, more - 1);
      SumZero(0, g.Size(), MemberDegree(g, labels, more - 1));
      assert Total(g, labels, more - 1) == 0.0;
    }
  }

  lemma SamePotential(g: Csr, labels: seq<nat>, groups: nat, others: nat)
    requires g.Valid() && |labels| == g.Size() && Mass(g) != 0.0
    requires LabelsBelow(labels, groups) && LabelsBelow(labels, others)
    ensures Potential(g, labels, groups) == Potential(g, labels, others)
  {
    if groups <= others { SpareGroups(g, labels, groups, others); } else { SpareGroups(g, labels, others, groups); }
  }

  /** No neighbouring group of the node beats its own by more than the tolerance. */
  ghost predicate AtRest(g: Csr, labels: seq<nat>, node: nat, tolerance: real)
    requires g.Valid() && |labels| == g.Size() && node < g.Size() && Mass(g) != 0.0
  {
    forall c :: NeighborIn(g, labels, node, c) ==>
      Score(g, labels, node, c) <= Score(g, labels, node, labels[node]) + tolerance
  }

  lemma StaysAtRest(g: Csr, before: seq<nat>, after: seq<nat>, node: nat, tolerance: real)
    requires g.Valid() && |before| == g.Size() && |after| == g.Size() && node < g.Size() && Mass(g) != 0.0
    requires after == before[node := after[node]] && after[node] == before[node]
    requires forall c :: NeighborIn(g, before, node, c) ==>
               Score(g, before, node, c) <= Score(g, before, node, after[node]) + tolerance
    ensures after == before && AtRest(g, after, node, tolerance)
  {
    hide NeighborIn, Score;
    assert after == before;
  }

  /** What `n` accepted moves raise the potential by, at least. */
  function Climb(tolerance: real, n: nat): real { 2.0 * tolerance * n as real }

  /**
   `_sequential`: each move it makes raises the potential by more than twice the tolerance, and it touches
   only the nodes it was given.
   */
  method Sequential(g: Csr, nodes: seq<nat>, labels: array<nat>, degree: seq<real>, mass: real, tolerance: real,
      ghost groups: nat)
    returns (moved: seq<nat>)
    requires Graph(g, degree, mass) && labels.Length == g.Size() && tolerance >= 0.0
    requires forall i :: 0 <= i < |nodes| ==> nodes[i] < g.Size()
    requires LabelsBelow(labels[..], groups)
    modifies labels
    ensures LabelsBelow(labels[..], groups)
    ensures moved == [] ==> labels[..] == old(labels[..])
    ensures moved != [] ==>
      Potential(g, labels[..], groups) > Potential(g, old(labels[..]), groups) + Climb(tolerance, |moved|)
    ensures forall node :: node in moved ==> node in nodes
    ensures forall u :: 0 <= u < labels.Length && u !in moved ==> labels[u] == old(labels[u])
    ensures moved == [] ==> forall i :: 0 <= i < |nodes| ==> AtRest(g, labels[..], nodes[i], tolerance)
  {
    hide Climb, Potential, Score, Symmetric, Degree, NeighborIn, TotalsMatch, AtRest;
    ghost var start := labels[..];
    var totals := GroupTotals(g, labels, degree, mass);
    moved := [];
    var i := 0;
    while i < |nodes|
      invariant 0 <= i <= |nodes|
      invariant LabelsBelow(labels[..], totals.Length) && TotalsMatch(g, labels[..], totals[..])
      invariant LabelsBelow(labels[..], groups)
      invariant moved == [] ==> labels[..] == start
      invariant moved != [] ==>
        Potential(g, labels[..], totals.Length) > Potential(g, start, totals.Length) + Climb(tolerance, |moved|)
      invariant forall node :: node in moved ==> node in nodes
      invariant forall u :: 0 <= u < labels.Length && u !in moved ==> labels[u] == start[u]
      invariant moved == [] ==> forall k :: 0 <= k < i ==> AtRest(g, labels[..], nodes[k], tolerance)
    {
      ghost var before := labels[..];
      var node := nodes[i];
      var changed := MoveNode(g, node, labels, totals, degree, mass, tolerance);
      if !changed { StaysAtRest(g, before, labels[..], node, tolerance); }
      NewLabelIsOld(g, before, labels[..], node, groups, changed);
      if changed {
        OneMoreMove(tolerance, |moved|);
        assert Potential(g, labels[..], totals.Length) > Potential(g, before, totals.Length) + 2.0 * tolerance;
        moved := moved + [node];
      }
      i := i + 1;
    }
    SamePotential(g, labels[..], totals.Length, groups);
    SamePotential(g, start, totals.Length, groups);
  }

  lemma OneMoreMove(tolerance: real, n: nat)
    ensures Climb(tolerance, n + 1) == Climb(tolerance, n) + 2.0 * tolerance
    ensures Climb(tolerance, 0) == 0.0
  {}

  lemma NewLabelIsOld(g: Csr, before: seq<nat>, after: seq<nat>, node: nat, groups: nat, changed: bool)
    requires g.Valid() && |before| == g.Size() && |after| == g.Size() && node < g.Size()
    requires LabelsBelow(before, groups) && after == before[node := after[node]]
    requires changed ==> NeighborIn(g, before, node, after[node])
    requires !changed ==> after[node] == before[node]
    ensures LabelsBelow(after, groups) && (!changed ==> after == before)
  {
    if !changed { assert after == before; }
  }

  method FlatNonzero(active: array<bool>) returns (nodes: seq<nat>)
    ensures forall u :: u in nodes <==> 0 <= u < active.Length && active[u]
    ensures forall i :: 0 <= i < |nodes| ==> nodes[i] < active.Length
    ensures forall i, j :: 0 <= i < j < |nodes| ==> nodes[i] < nodes[j]
  {
    nodes := [];
    var u := 0;
    while u < active.Length
      invariant 0 <= u <= active.Length
      invariant forall v :: v in nodes <==> 0 <= v < u && active[v]
      invariant forall i :: 0 <= i < |nodes| ==> nodes[i] < u
      invariant forall i, j :: 0 <= i < j < |nodes| ==> nodes[i] < nodes[j]
    {
      if active[u] { nodes := nodes + [u]; }
      u := u + 1;
    }
  }

  ghost predicate Woken(g: Csr, moved: seq<nat>, v: nat)
    requires g.Valid()
  {
    v in moved || exists u :: u in moved && LeadsTo(g, u, v)
  }

  ghost predicate LeadsTo(g: Csr, u: nat, v: nat)
    requires g.Valid()
  {
    u < g.Size() && exists e :: g.offsets[u] <= e < g.offsets[u + 1] && g.neighbors[e] == v
  }

  lemma NobodyWoken(g: Csr)
    requires g.Valid()
    ensures forall v :: !Woken(g, [], v)
  {
  }

  lemma WokenByOne(g: Csr, moved: seq<nat>, u: nat)
    requires g.Valid() && u < g.Size()
    ensures forall v :: Woken(g, moved + [u], v) <==>
              Woken(g, moved, v) || v == u || exists e :: g.offsets[u] <= e < g.offsets[u + 1] && g.neighbors[e] == v
  {
    forall v: nat
      ensures Woken(g, moved + [u], v) <==>
                Woken(g, moved, v) || v == u || exists e :: g.offsets[u] <= e < g.offsets[u + 1] && g.neighbors[e] == v
    {
      WokenAt(g, moved, u, v);
    }
  }

  lemma WokenAt(g: Csr, moved: seq<nat>, u: nat, v: nat)
    requires g.Valid() && u < g.Size()
    ensures Woken(g, moved + [u], v) <==> Woken(g, moved, v) || v == u || LeadsTo(g, u, v)
  {
    assert u in moved + [u];
    forall w | w in moved && LeadsTo(g, w, v) ensures Woken(g, moved + [u], v) { assert w in moved + [u]; }
  }

  /** `active[:] = False`, then every moved node and every neighbour of one wakes up. */
  method Wake(g: Csr, moved: seq<nat>, active: array<bool>)
    requires g.Valid() && active.Length == g.Size()
    requires forall u :: u in moved ==> u < g.Size()
    modifies active
    ensures forall v :: 0 <= v < active.Length ==> (active[v] <==> Woken(g, moved, v))
  {
    hide Woken, LeadsTo;
    forall v | 0 <= v < active.Length { active[v] := false; }
    NobodyWoken(g);
    var i := 0;
    while i < |moved|
      invariant 0 <= i <= |moved|
      invariant forall v :: 0 <= v < active.Length ==> (active[v] <==> Woken(g, moved[..i], v))
    {
      var u := moved[i];
      assert u in moved;
      ghost var before := moved[..i];
      active[u] := true;
      var e := g.offsets[u];
      while e < g.offsets[u + 1]
        invariant g.offsets[u] <= e <= g.offsets[u + 1]
        invariant forall v :: 0 <= v < active.Length ==>
          (active[v] <==> Woken(g, before, v) || v == u || exists k :: g.offsets[u] <= k < e && g.neighbors[k] == v)
      {
        active[g.neighbors[e]] := true;
        e := e + 1;
      }
      i := i + 1;
      assert moved[..i] == before + [u];
      WokenByOne(g, before, u);
    }
    assert moved[..i] == moved;
  }

  /** One sweep over the woken nodes: it moves some of them and climbs, or it finds all of them at rest. */
  ghost predicate SweepOf(g: Csr, before: seq<nat>, active: seq<bool>, moved: seq<nat>, after: seq<nat>,
      tolerance: real, groups: nat)
  {
    && g.Valid() && Mass(g) != 0.0 && |before| == |after| == |active| == g.Size()
    && LabelsBelow(before, groups) && LabelsBelow(after, groups)
    && (forall u :: u in moved ==> u < |active| && active[u])
    && (forall u :: 0 <= u < |before| && u !in moved ==> after[u] == before[u])
    && (exists u :: 0 <= u < |active| && active[u])
    && if moved == [] then forall u :: 0 <= u < |active| && active[u] ==> AtRest(g, after, u, tolerance)
       else Potential(g, after, groups) > Potential(g, before, groups) + Climb(tolerance, |moved|)
  }

  /** After a sweep exactly the moved nodes and their neighbours are awake, unless nothing moved. */
  ghost predicate WakesTo(g: Csr, before: seq<bool>, moved: seq<nat>, after: seq<bool>)
    requires g.Valid()
  {
    if moved == [] then after == before
    else |after| == |before| && forall v :: 0 <= v < |after| ==> (after[v] <==> Woken(g, moved, v))
  }

  /** A run of sweeps: each follows the one before, and only the last may move nothing. */
  ghost predicate Sweeps(g: Csr, labelings: seq<seq<nat>>, actives: seq<seq<bool>>, moves: seq<seq<nat>>,
      tolerance: real, groups: nat)
    requires g.Valid()
  {
    && |labelings| == |actives| == |moves| + 1
    && (forall k :: 0 <= k < |moves| ==>
          && SweepOf(g, labelings[k], actives[k], moves[k], labelings[k + 1], tolerance, groups)
          && WakesTo(g, actives[k], moves[k], actives[k + 1]))
    && forall k :: 0 <= k < |moves| - 1 ==> moves[k] != []
  }

  lemma NextSweep(g: Csr, labelings: seq<seq<nat>>, actives: seq<seq<bool>>, moves: seq<seq<nat>>, moved: seq<nat>,
      after: seq<nat>, active: seq<bool>, tolerance: real, groups: nat)
    requires g.Valid() && Sweeps(g, labelings, actives, moves, tolerance, groups) && forall m :: m in moves ==> m != []
    requires SweepOf(g, labelings[|moves|], actives[|moves|], moved, after, tolerance, groups)
    requires WakesTo(g, actives[|moves|], moved, active)
    ensures Sweeps(g, labelings + [after], actives + [active], moves + [moved], tolerance, groups)
  {
    hide SweepOf, WakesTo;
    var ls, ss, ms := labelings + [after], actives + [active], moves + [moved];
    forall k | 0 <= k < |ms|
      ensures SweepOf(g, ls[k], ss[k], ms[k], ls[k + 1], tolerance, groups) && WakesTo(g, ss[k], ms[k], ss[k + 1])
    {
      if k < |moves| {
        assert ls[k] == labelings[k] && ls[k + 1] == labelings[k + 1] && ss[k] == actives[k]
               && ss[k + 1] == actives[k + 1] && ms[k] == moves[k];
      }
    }
    forall k | 0 <= k < |ms| - 1 ensures ms[k] != [] { assert ms[k] in moves; }
  }

  /** How many moves the sweeps made together. */
  function MovesOf(moves: seq<seq<nat>>): nat {
    if moves == [] then 0 else MovesOf(moves[..|moves| - 1]) + |moves[|moves| - 1]|
  }

  lemma MovesMore(moves: seq<seq<nat>>, moved: seq<nat>)
    ensures MovesOf(moves + [moved]) == MovesOf(moves) + |moved|
  {
    assert (moves + [moved])[..|moves|] == moves;
  }

  /**
   Phase 2 of `_vector_moves`: sweeps of the sequential rule over the woken nodes. It has converged exactly when nobody
   is awake or a sweep moved nothing, and then every node still awake is at rest. Whatever labelling it is given, its
   moves together raise the potential by more than `Climb`, so they cannot exceed what the range of the potential
   allows, and a sweep limit beyond that bound is never the reason it stops.
   */
  method LocalMoves(g: Csr, labels: array<nat>, active: array<bool>, degree: seq<real>, mass: real, tolerance: real,
      maximumSweeps: nat, ghost groups: nat)
    returns (converged: bool, sweeps: nat, ghost labelings: seq<seq<nat>>, ghost actives: seq<seq<bool>>,
      ghost moves: seq<seq<nat>>)
    requires Graph(g, degree, mass) && Positive(g) && tolerance > 0.0
    requires labels.Length == g.Size() && active.Length == g.Size() && LabelsBelow(labels[..], groups)
    modifies labels, active
    ensures LabelsBelow(labels[..], groups) && Mass(g) != 0.0
    ensures Sweeps(g, labelings, actives, moves, tolerance, groups) && sweeps == |moves| <= maximumSweeps
    ensures labelings[0] == old(labels[..]) && labelings[sweeps] == labels[..]
    ensures actives[0] == old(active[..]) && actives[sweeps] == active[..]
    ensures converged <==> (sweeps < maximumSweeps && forall u :: 0 <= u < active.Length ==> !active[u])
                           || (sweeps > 0 && moves[sweeps - 1] == [])
    ensures !converged ==> sweeps == maximumSweeps
    ensures converged ==> forall u :: 0 <= u < active.Length && active[u] ==> AtRest(g, labels[..], u, tolerance)
    ensures sweeps <= MovesOf(moves) + 1 && (!converged ==> MovesOf(moves) >= maximumSweeps)
    ensures Potential(g, old(labels[..]), groups) + Climb(tolerance, MovesOf(moves)) <= Potential(g, labels[..], groups)
    ensures Climb(tolerance, MovesOf(moves)) <= 2.0 * mass
    ensures Climb(tolerance, maximumSweeps) > 2.0 * mass ==> converged
  {
    hide Potential, Symmetric, Degree, Score, Climb, Mass, SweepOf, WakesTo, AtRest, Sweeps, MovesOf, Woken;
    GraphHasMass(g, degree, mass);
    ghost var start := labels[..];
    converged, sweeps, labelings, actives, moves := false, 0, [labels[..]], [active[..]], [];
    NoSweepYet(g, labels[..], active[..], tolerance, groups);
    OneMoreMove(tolerance, 0);
    while sweeps < maximumSweeps
      invariant sweeps == |moves| <= maximumSweeps && sweeps <= MovesOf(moves) && !converged
      invariant Sweeps(g, labelings, actives, moves, tolerance, groups) && forall m :: m in moves ==> m != []
      invariant |labelings| == |actives| == sweeps + 1
      invariant labelings[0] == start && labelings[sweeps] == labels[..]
      invariant actives[0] == old(active[..]) && actives[sweeps] == active[..]
      invariant LabelsBelow(labels[..], groups)
      invariant Potential(g, start, groups) + Climb(tolerance, MovesOf(moves)) <= Potential(g, labels[..], groups)
      decreases maximumSweeps - sweeps
    {
      var nodes := FlatNonzero(active);
      if nodes == [] {
        NobodyAwake(active[..], nodes);
        converged := true;
        break;
      }
      ghost var before, awake := labels[..], active[..];
      var moved := Sequential(g, nodes, labels, degree, mass, tolerance, groups);
      SweptOnce(g, before, awake, nodes, moved, labels[..], tolerance, groups);
      MoreClimb(tolerance, MovesOf(moves), |moved|);
      MovesMore(moves, moved);
      sweeps := sweeps + 1;
      if moved == [] {
        SleepsOn(g, active[..]);
        NextSweep(g, labelings, actives, moves, moved, labels[..], active[..], tolerance, groups);
        RestAfter(g, before, awake, labels[..], tolerance, groups);
        labelings, actives, moves := labelings + [labels[..]], actives + [active[..]], moves + [moved];
        converged := true;
        break;
      }
      Wake(g, moved, active);
      Woke(g, awake, moved, active[..]);
      NextSweep(g, labelings, actives, moves, moved, labels[..], active[..], tolerance, groups);
      labelings, actives, moves := labelings + [labels[..]], actives + [active[..]], moves + [moved];
    }
    PotentialRange(g, start, groups);
    PotentialRange(g, labels[..], groups);
    if !converged {
      MoreClimb(tolerance, maximumSweeps, MovesOf(moves) - maximumSweeps);
      if sweeps > 0 { assert moves[sweeps - 1] in moves; }
    }
  }

  lemma GraphHasMass(g: Csr, degree: seq<real>, mass: real)
    requires Graph(g, degree, mass)
    ensures Mass(g) != 0.0
  {
  }

  lemma NoSweepYet(g: Csr, labels: seq<nat>, active: seq<bool>, tolerance: real, groups: nat)
    requires g.Valid()
    ensures Sweeps(g, [labels], [active], [], tolerance, groups) && MovesOf([]) == 0
  {
  }

  lemma NobodyAwake(active: seq<bool>, nodes: seq<nat>)
    requires nodes == [] && forall u :: u in nodes <==> 0 <= u < |active| && active[u]
    ensures forall u :: 0 <= u < |active| ==> !active[u]
  {
    forall u | 0 <= u < |active| ensures !active[u] { assert u !in nodes; }
  }

  lemma SweptOnce(g: Csr, before: seq<nat>, active: seq<bool>, nodes: seq<nat>, moved: seq<nat>, after: seq<nat>,
      tolerance: real, groups: nat)
    requires g.Valid() && Mass(g) != 0.0 && |before| == |after| == |active| == g.Size() && nodes != []
    requires LabelsBelow(before, groups) && LabelsBelow(after, groups)
    requires forall u :: u in nodes <==> 0 <= u < |active| && active[u]
    requires forall i :: 0 <= i < |nodes| ==> nodes[i] < |active|
    requires forall u :: u in moved ==> u in nodes
    requires forall u :: 0 <= u < |before| && u !in moved ==> after[u] == before[u]
    requires moved == [] ==> forall i :: 0 <= i < |nodes| ==> AtRest(g, after, nodes[i], tolerance)
    requires moved != [] ==> Potential(g, after, groups) > Potential(g, before, groups) + Climb(tolerance, |moved|)
    ensures SweepOf(g, before, active, moved, after, tolerance, groups)
  {
    hide Potential, Mass, AtRest, Climb;
    assert nodes[0] in nodes;
    if moved == [] {
      forall u | 0 <= u < |active| && active[u] ensures AtRest(g, after, u, tolerance) {
        assert u in nodes;
        var i :| 0 <= i < |nodes| && nodes[i] == u;
      }
    }
  }

  lemma RestAfter(g: Csr, before: seq<nat>, active: seq<bool>, after: seq<nat>, tolerance: real, groups: nat)
    requires SweepOf(g, before, active, [], after, tolerance, groups)
    ensures g.Valid() && Mass(g) != 0.0 && |after| == |active| == g.Size()
    ensures forall u :: 0 <= u < |active| && active[u] ==> AtRest(g, after, u, tolerance)
  {
    hide AtRest, Mass, Potential;
  }

  lemma SleepsOn(g: Csr, active: seq<bool>)
    requires g.Valid()
    ensures WakesTo(g, active, [], active)
  {
  }

  lemma Woke(g: Csr, before: seq<bool>, moved: seq<nat>, after: seq<bool>)
    requires g.Valid() && |after| == |before| && moved != []
    requires forall v :: 0 <= v < |after| ==> (after[v] <==> Woken(g, moved, v))
    ensures WakesTo(g, before, moved, after)
  {
  }

  lemma MoreClimb(tolerance: real, n: nat, more: nat)
    requires tolerance >= 0.0
    ensures Climb(tolerance, n + more) == Climb(tolerance, n) + Climb(tolerance, more) && Climb(tolerance, more) >= 0.0
  {}

  const EPSILON: real := 1.0 / 4503599627370496.0

  /** `64 * np.finfo(float).eps * max(mass, 1.0)`. */
  function Tolerance(mass: real): real { 64.0 * EPSILON * (if mass > 1.0 then mass else 1.0) }

  lemma SignOfProduct(x: real, s: real)
    requires s > 0.0
    ensures x < 0.0 <==> x * s < 0.0
  {}

  /** With the tolerance the code uses, no run over any graph makes more than 2^46 moves. */
  lemma MovesAreFew(mass: real, moves: nat)
    requires mass > 0.0 && Climb(Tolerance(mass), moves) <= 2.0 * mass
    ensures moves <= 70368744177664
  {
    var scale := if mass > 1.0 then mass else 1.0;
    var unit := 2.0 * (64.0 * EPSILON) * moves as real;
    assert Climb(Tolerance(mass), moves) == unit * scale;
    assert (2.0 - unit) * scale == 2.0 * scale - unit * scale;
    SignOfProduct(2.0 - unit, scale);
  }
}
