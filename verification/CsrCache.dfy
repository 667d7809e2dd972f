/**
 The incremental adjacency of `csr_cache.py`: extending a cached CSR by a batch of edges and strength
 edits gives the one CSR a build from scratch gives.
 */
module CsrCache {
  import opened Sums
  import FlatVrs

  /** Directed flat edges; every edge contributes to both of its endpoints' rows. */
  datatype Edges = Edges(src: seq<nat>, dst: seq<nat>, strength: seq<real>) {
    ghost predicate Valid(n: nat) {
      && |src| == |dst| == |strength|
      && (forall e :: 0 <= e < |src| ==> src[e] < n)
      && (forall e :: 0 <= e < |dst| ==> dst[e] < n)
    }
  }

  datatype Cell = Cell(col: nat, weight: real)

  /** `rows[offsets[u]..offsets[u + 1]]` for every node, neighbours and weights side by side. */
  datatype Csr = Csr(offsets: seq<nat>, cells: seq<Cell>)

  // ----- what a CSR of the edges is -----

  ghost function PairTerm(g: Edges, u: nat, v: nat): int -> real {
    e => if 0 <= e < |g.src| && e < |g.dst| && e < |g.strength| then
           (if g.src[e] == u && g.dst[e] == v then g.strength[e] else 0.0)
           + (if g.dst[e] == u && g.src[e] == v then g.strength[e] else 0.0)
         else 0.0
  }

  /** The summed weight of entry (u, v) over the edges `lo .. hi`, in both directions. */
  ghost function PairSum(g: Edges, u: nat, v: nat, lo: nat, hi: nat): real {
    Sum(lo, hi, PairTerm(g, u, v))
  }

  ghost predicate Joins(g: Edges, e: nat, u: nat, v: nat)
    requires e < |g.src| && e < |g.dst|
  {
    (g.src[e] == u && g.dst[e] == v) || (g.src[e] == v && g.dst[e] == u)
  }

  ghost predicate Linked(g: Edges, u: nat, v: nat, lo: nat, hi: nat)
    requires hi <= |g.src| == |g.dst|
  {
    exists e :: lo <= e < hi && Joins(g, e, u, v)
  }

  ghost predicate Increasing(row: seq<Cell>) { forall i, j :: 0 <= i < j < |row| ==> row[i].col < row[j].col }

  ghost predicate HasCol(row: seq<Cell>, v: nat) { exists i :: 0 <= i < |row| && row[i].col == v }

  /** Row `u` lists exactly the neighbours, in increasing order. */
  ghost predicate ColsOf(row: seq<Cell>, g: Edges, u: nat)
    requires |g.src| == |g.dst|
  {
    && Increasing(row)
    && forall v :: HasCol(row, v) <==> Linked(g, u, v, 0, |g.src|)
  }

  ghost predicate WeightsOf(row: seq<Cell>, g: Edges, u: nat) {
    forall i :: 0 <= i < |row| ==> row[i].weight == PairSum(g, u, row[i].col, 0, |g.src|)
  }

  ghost predicate Framed(c: Csr, n: nat) {
    && |c.offsets| == n + 1 && c.offsets[0] == 0 && c.offsets[n] == |c.cells|
    && forall u, v :: 0 <= u <= v <= n ==> c.offsets[u] <= c.offsets[v]
  }

  function Row(c: Csr, u: nat): seq<Cell>
    requires u + 1 < |c.offsets| && c.offsets[u] <= c.offsets[u + 1] <= |c.cells|
  {
    c.cells[c.offsets[u]..c.offsets[u + 1]]
  }

  /** The CSR of the whole graph, as `_csr` builds it. */
  ghost predicate IsCsr(c: Csr, g: Edges, n: nat)
    requires g.Valid(n)
  {
    && Framed(c, n)
    && forall u :: 0 <= u < n ==> RowOffsets(c, u) && ColsOf(Row(c, u), g, u) && WeightsOf(Row(c, u), g, u)
  }

  ghost predicate RowOffsets(c: Csr, u: nat) { u + 1 < |c.offsets| && c.offsets[u] <= c.offsets[u + 1] <= |c.cells| }

  // ----- there is only one -----

  lemma {:induction false} SameColsSameRow(a: seq<Cell>, b: seq<Cell>, g: Edges, u: nat)
    requires |g.src| == |g.dst| && ColsOf(a, g, u) && ColsOf(b, g, u) && WeightsOf(a, g, u) && WeightsOf(b, g, u)
    ensures a == b
  {
    var i := 0;
    while i < |a| && i < |b|
      invariant 0 <= i <= |a| && i <= |b|
      invariant forall j :: 0 <= j < i ==> a[j] == b[j]
    {
      assert HasCol(a, a[i].col) && HasCol(b, b[i].col);
      assert HasCol(b, a[i].col) && HasCol(a, b[i].col);
      i := i + 1;
    }
    if i < |a| { assert HasCol(a, a[i].col); }
    if i < |b| { assert HasCol(b, b[i].col); }
  }

  lemma {:induction false} SamePrefix(a: Csr, b: Csr, g: Edges, n: nat, k: nat)
    requires g.Valid(n) && IsCsr(a, g, n) && IsCsr(b, g, n) && k <= n
    ensures a.offsets[..k + 1] == b.offsets[..k + 1] && a.cells[..a.offsets[k]] == b.cells[..b.offsets[k]]
  {
    CsrHasRows(a, g, n, k);
    CsrHasRows(b, g, n, k);
    if k > 0 {
      SamePrefix(a, b, g, n, k - 1);
      CsrHasRow(a, g, n, k - 1);
      CsrHasRow(b, g, n, k - 1);
      hide IsCsr, ColsOf, WeightsOf, Row;
      SameColsSameRow(Row(a, k - 1), Row(b, k - 1), g, k - 1);
      PrefixGrows(a, k);
      PrefixGrows(b, k);
    }
  }

  lemma CsrHasRows(c: Csr, g: Edges, n: nat, k: nat)
    requires g.Valid(n) && IsCsr(c, g, n) && k <= n
    ensures |c.offsets| == n + 1 && c.offsets[0] == 0 && c.offsets[k] <= |c.cells|
  {
    hide ColsOf, WeightsOf;
  }

  lemma CsrHasRow(c: Csr, g: Edges, n: nat, u: nat)
    requires g.Valid(n) && IsCsr(c, g, n) && u < n
    ensures RowOffsets(c, u) && ColsOf(Row(c, u), g, u) && WeightsOf(Row(c, u), g, u)
  {
    hide ColsOf, WeightsOf;
  }

  /** The cells and offsets up to a row are those before it with the row at the end. */
  lemma PrefixGrows(c: Csr, k: nat)
    requires 0 < k < |c.offsets| && RowOffsets(c, k - 1)
    ensures c.cells[..c.offsets[k]] == c.cells[..c.offsets[k - 1]] + Row(c, k - 1)
    ensures c.offsets[..k + 1] == c.offsets[..k] + [c.offsets[k]]
  {
  }

  /** Offsets, neighbours and weights are all determined by the edges. */
  lemma CsrIsUnique(a: Csr, b: Csr, g: Edges, n: nat)
    requires g.Valid(n) && IsCsr(a, g, n) && IsCsr(b, g, n)
    ensures a == b
  {
    SamePrefix(a, b, g, n, n);
    assert a.offsets[..n + 1] == a.offsets && b.offsets[..n + 1] == b.offsets;
    assert a.cells[..|a.cells|] == a.cells && b.cells[..|b.cells|] == b.cells;
  }

  // ----- `_grouped`: batch entries in order, parallel ones summed -----

  datatype Entry = Entry(row: nat, col: nat, weight: real)

  predicate Before(a: Entry, b: Entry) { a.row < b.row || (a.row == b.row && a.col < b.col) }

  ghost predicate SortedGroups(groups: seq<Entry>) {
    forall i, j :: 0 <= i < j < |groups| ==> Before(groups[i], groups[j])
  }

  /** One more entry: into its group, or as a new group at its place in the order. */
  function Insert(groups: seq<Entry>, entry: Entry): seq<Entry> {
    if groups == [] || Before(entry, groups[0]) then [entry] + groups
    else if groups[0].row == entry.row && groups[0].col == entry.col then
      [groups[0].(weight := groups[0].weight + entry.weight)] + groups[1..]
    else [groups[0]] + Insert(groups[1..], entry)
  }

  function Grouped(entries: seq<Entry>): seq<Entry> {
    if entries == [] then [] else Insert(Grouped(entries[..|entries| - 1]), entries[|entries| - 1])
  }

  ghost function GroupTerm(entries: seq<Entry>, row: nat, col: nat): int -> real {
    i => if 0 <= i < |entries| && entries[i].row == row && entries[i].col == col then entries[i].weight else 0.0
  }

  ghost function GroupSum(entries: seq<Entry>, row: nat, col: nat): real {
    Sum(0, |entries|, GroupTerm(entries, row, col))
  }

  ghost predicate HasEntry(entries: seq<Entry>, row: nat, col: nat) {
    exists i :: 0 <= i < |entries| && entries[i].row == row && entries[i].col == col
  }

  ghost function WeightAt(groups: seq<Entry>, row: nat, col: nat): real {
    if groups == [] then 0.0
    else if groups[0].row == row && groups[0].col == col then groups[0].weight else WeightAt(groups[1..], row, col)
  }

  lemma {:induction false} InsertSorted(groups: seq<Entry>, entry: Entry)
    requires SortedGroups(groups)
    ensures SortedGroups(Insert(groups, entry))
    ensures forall e :: e in Insert(groups, entry) ==>
              (e.row == entry.row && e.col == entry.col) || exists f :: f in groups && f.row == e.row && f.col == e.col
  {
    var after := Insert(groups, entry);
    if groups != [] && !Before(entry, groups[0]) {
      if groups[0].row == entry.row && groups[0].col == entry.col {
        assert after[1..] == groups[1..];
      } else {
        InsertSorted(groups[1..], entry);
        assert after[1..] == Insert(groups[1..], entry);
        forall j | 0 < j < |after| ensures Before(after[0], after[j]) {
          assert after[j] in after[1..];
        }
      }
    }
  }

  lemma {:induction false} InsertFacts(groups: seq<Entry>, entry: Entry, row: nat, col: nat)
    requires SortedGroups(groups)
    ensures SortedGroups(Insert(groups, entry))
    ensures HasEntry(Insert(groups, entry), row, col) <==>
              HasEntry(groups, row, col) || (entry.row == row && entry.col == col)
    ensures WeightAt(Insert(groups, entry), row, col) == WeightAt(groups, row, col)
              + (if entry.row == row && entry.col == col then entry.weight else 0.0)
  {
    hide HasEntry;
    InsertSorted(groups, entry);
    var after := Insert(groups, entry);
    if groups == [] || Before(entry, groups[0]) {
      assert after[1..] == groups;
      AbsentBelow(groups, entry);
      HasEntryCons(entry, groups, row, col);
    } else if groups[0].row == entry.row && groups[0].col == entry.col {
      assert after[1..] == groups[1..];
      assert groups == [groups[0]] + groups[1..];
      HasEntryCons(groups[0], groups[1..], row, col);
      HasEntryCons(after[0], groups[1..], row, col);
    } else {
      InsertFacts(groups[1..], entry, row, col);
      assert after[1..] == Insert(groups[1..], entry);
      assert groups == [groups[0]] + groups[1..];
      HasEntryCons(groups[0], groups[1..], row, col);
      HasEntryCons(groups[0], after[1..], row, col);
    }
  }

  lemma HasEntryCons(first: Entry, rest: seq<Entry>, row: nat, col: nat)
    ensures HasEntry([first] + rest, row, col) <==> (first.row == row && first.col == col) || HasEntry(rest, row, col)
  {
    var all := [first] + rest;
    if HasEntry(rest, row, col) {
      var i :| 0 <= i < |rest| && rest[i].row == row && rest[i].col == col;
      assert all[i + 1] == rest[i];
    }
    if first.row == row && first.col == col { assert all[0] == first; }
  }

  lemma {:induction false} AbsentBelow(groups: seq<Entry>, entry: Entry)
    requires SortedGroups(groups) && (groups == [] || Before(entry, groups[0]))
    ensures WeightAt(groups, entry.row, entry.col) == 0.0
  {
    if groups != [] {
      assert groups[1..] == [] || Before(entry, groups[1]);
      AbsentBelow(groups[1..], entry);
    }
  }

  /** `_grouped`: strictly ordered, one group per (row, col) that occurs, weights summed. */
  lemma {:induction false} GroupedFacts(entries: seq<Entry>, row: nat, col: nat)
    ensures SortedGroups(Grouped(entries))
    ensures HasEntry(Grouped(entries), row, col) <==> HasEntry(entries, row, col)
    ensures WeightAt(Grouped(entries), row, col) == GroupSum(entries, row, col)
  {
    hide Insert, HasEntry;
    if entries != [] {
      var init, last := entries[..|entries| - 1], entries[|entries| - 1];
      GroupedFacts(init, row, col);
      InsertFacts(Grouped(init), last, row, col);
      SumSame(0, |init|, GroupTerm(entries, row, col), GroupTerm(init, row, col));
      HasEntrySnoc(init, last, row, col);
      assert entries == init + [last];
    }
  }

  lemma HasEntrySnoc(init: seq<Entry>, last: Entry, row: nat, col: nat)
    ensures HasEntry(init + [last], row, col) <==> HasEntry(init, row, col) || (last.row == row && last.col == col)
  {
    var all := init + [last];
    if HasEntry(init, row, col) {
      var i :| 0 <= i < |init| && init[i].row == row && init[i].col == col;
      assert all[i] == init[i];
    }
    if last.row == row && last.col == col { assert all[|init|] == last; }
  }

  lemma {:induction false} WeightAtIndex(groups: seq<Entry>, i: nat)
    requires SortedGroups(groups) && i < |groups|
    ensures WeightAt(groups, groups[i].row, groups[i].col) == groups[i].weight
  {
    if i > 0 {
      assert Before(groups[0], groups[i]);
      assert groups[1..][i - 1] == groups[i];
      WeightAtIndex(groups[1..], i - 1);
    }
  }

  // ----- the entries of the new edges -----

  /** Edges from `m` on, as (from, to) entries. */
  function Directed(from: seq<nat>, to: seq<nat>, strength: seq<real>, m: nat): (entries: seq<Entry>)
    requires m <= |from| == |to| == |strength|
    ensures |entries| == |from| - m
  {
    seq(|from| - m, i requires 0 <= i < |from| - m => Entry(from[m + i], to[m + i], strength[m + i]))
  }

  /** `np.r_[src, dst], np.r_[dst, src], np.r_[strength, strength]`. */
  function NewEntries(g: Edges, m: nat): seq<Entry>
    requires m <= |g.src| == |g.dst| == |g.strength|
  {
    Directed(g.src, g.dst, g.strength, m) + Directed(g.dst, g.src, g.strength, m)
  }

  ghost function ForwardTerm(g: Edges, u: nat, v: nat): int -> real {
    e => if 0 <= e < |g.src| && e < |g.dst| && e < |g.strength| && g.src[e] == u && g.dst[e] == v then g.strength[e]
      else 0.0
  }

  lemma PairIsBothWays(g: Edges, u: nat, v: nat, lo: nat, hi: nat)
    requires lo <= hi
    ensures PairSum(g, u, v, lo, hi) == Sum(lo, hi, ForwardTerm(g, u, v)) + Sum(lo, hi, ForwardTerm(g, v, u))
  {
    SumPlus(lo, hi, ForwardTerm(g, u, v), ForwardTerm(g, v, u), PairTerm(g, u, v));
  }

  lemma NewEntryTerms(g: Edges, m: nat, u: nat, v: nat, i: nat)
    requires m <= |g.src| == |g.dst| == |g.strength| && i < |g.src| - m
    ensures GroupTerm(NewEntries(g, m), u, v)(i) == ForwardTerm(g, u, v)(i + m)
    ensures GroupTerm(NewEntries(g, m), u, v)(i + (|g.src| - m)) == ForwardTerm(g, v, u)(i + m)
  {
    NewEntriesLength(g, m);
    var t, all := |g.src| - m, NewEntries(g, m);
    assert all[i] == Directed(g.src, g.dst, g.strength, m)[i];
    assert all[i + t] == Directed(g.dst, g.src, g.strength, m)[i];
  }

  lemma NewEntriesLength(g: Edges, m: nat)
    requires m <= |g.src| == |g.dst| == |g.strength|
    ensures |NewEntries(g, m)| == 2 * (|g.src| - m)
  {
  }

  lemma NewEntriesSum(g: Edges, m: nat, u: nat, v: nat)
    requires m <= |g.src| == |g.dst| == |g.strength|
    ensures GroupSum(NewEntries(g, m), u, v) == PairSum(g, u, v, m, |g.src|)
  {
    hide NewEntries, GroupTerm, ForwardTerm;
    var k, t := |g.src|, |g.src| - m;
    var all := GroupTerm(NewEntries(g, m), u, v);
    var back := (i: int) => all(i + t);
    forall i | 0 <= i < t ensures all(i) == ForwardTerm(g, u, v)(i + m) { NewEntryTerms(g, m, u, v, i); }
    forall i | 0 <= i < t ensures back(i) == ForwardTerm(g, v, u)(i + m) { NewEntryTerms(g, m, u, v, i); }
    assert |NewEntries(g, m)| == 2 * t by { NewEntriesLength(g, m); }
    SumSplit(0, t, 2 * t, all);
    SumShift(0, t, m, ForwardTerm(g, u, v), all);
    SumShift(0, t, t, all, back);
    SumShift(0, t, m, ForwardTerm(g, v, u), back);
    PairIsBothWays(g, u, v, m, k);
  }

  lemma NewEntriesLinked(g: Edges, m: nat, u: nat, v: nat)
    requires m <= |g.src| == |g.dst| == |g.strength|
    ensures HasEntry(NewEntries(g, m), u, v) <==> Linked(g, u, v, m, |g.src|)
  {
    var t := |g.src| - m;
    var all := NewEntries(g, m);
    if HasEntry(all, u, v) {
      var i :| 0 <= i < |all| && all[i].row == u && all[i].col == v;
      assert Joins(g, if i < t then m + i else m + i - t, u, v);
    }
    if Linked(g, u, v, m, |g.src|) {
      var e :| m <= e < |g.src| && Joins(g, e, u, v);
      if g.src[e] == u && g.dst[e] == v { assert all[e - m].row == u; } else { assert all[e - m + t].row == u; }
    }
  }

  // ----- rows of the merge -----

  /** Groups of rows below `r`: `np.cumsum(np.bincount(rows))`, at position `r`. */
  function FirstOf(groups: seq<Entry>, r: nat): (k: nat)
    ensures k <= |groups|
  {
    if groups == [] then 0 else FirstOf(groups[..|groups| - 1], r) + (if groups[|groups| - 1].row < r then 1 else 0)
  }

  lemma {:induction false} FirstOfSplits(groups: seq<Entry>, r: nat)
    requires SortedGroups(groups)
    ensures forall j :: 0 <= j < |groups| ==> (j < FirstOf(groups, r) <==> groups[j].row < r)
  {
    if groups != [] {
      var init := groups[..|groups| - 1];
      FirstOfSplits(init, r);
      forall j | 0 <= j < |init| ensures init[j] == groups[j] {}
      if groups[|groups| - 1].row < r && |init| > 0 { assert Before(init[|init| - 1], groups[|groups| - 1]); }
    }
  }

  lemma FirstOfMonotone(groups: seq<Entry>, r: nat, s: nat)
    requires SortedGroups(groups) && r <= s
    ensures FirstOf(groups, r) <= FirstOf(groups, s)
  {
    FirstOfSplits(groups, r);
    FirstOfSplits(groups, s);
    var k := FirstOf(groups, r);
    if k > 0 { assert groups[k - 1].row < r; }
  }

  /** The groups of row `r`, as cells. */
  function NewRow(groups: seq<Entry>, r: nat): seq<Cell> {
    var first, last := FirstOf(groups, r), FirstOf(groups, r + 1);
    seq(if first <= last then last - first else 0, i requires 0 <= i < last - first =>
      Cell(groups[first + i].col, groups[first + i].weight))
  }

  /** Where row `r` of the cached prefix starts; rows beyond it are empty. */
  function OldOffset(c: Csr, r: nat): nat
    requires |c.offsets| >= 1
  {
    if r < |c.offsets| then c.offsets[r] else c.offsets[|c.offsets| - 1]
  }

  function OldRow(c: Csr, r: nat): seq<Cell>
    requires |c.offsets| >= 1
  {
    if OldOffset(c, r) <= OldOffset(c, r + 1) <= |c.cells| then c.cells[OldOffset(c, r)..OldOffset(c, r + 1)] else []
  }

  lemma NewRowOrdered(groups: seq<Entry>, r: nat)
    requires SortedGroups(groups)
    ensures FirstOf(groups, r) <= FirstOf(groups, r + 1)
    ensures |NewRow(groups, r)| == FirstOf(groups, r + 1) - FirstOf(groups, r)
    ensures Increasing(NewRow(groups, r))
    ensures forall j :: FirstOf(groups, r) <= j < FirstOf(groups, r + 1) <==> 0 <= j < |groups| && groups[j].row == r
  {
    FirstOfMonotone(groups, r, r + 1);
    FirstOfSplits(groups, r);
    FirstOfSplits(groups, r + 1);
    var row, first := NewRow(groups, r), FirstOf(groups, r);
    forall i, j | 0 <= i < j < |row| ensures row[i].col < row[j].col {
      assert Before(groups[first + i], groups[first + j]);
    }
  }

  lemma NewRowCol(groups: seq<Entry>, r: nat, v: nat)
    requires SortedGroups(groups)
    ensures HasCol(NewRow(groups, r), v) <==> HasEntry(groups, r, v)
  {
    hide FirstOf;
    NewRowOrdered(groups, r);
    var row, first := NewRow(groups, r), FirstOf(groups, r);
    if HasCol(row, v) {
      var i :| 0 <= i < |row| && row[i].col == v;
      assert groups[first + i].row == r && groups[first + i].col == v;
    }
    if HasEntry(groups, r, v) {
      var j :| 0 <= j < |groups| && groups[j].row == r && groups[j].col == v;
      assert first <= j < FirstOf(groups, r + 1);
      assert row[j - first].col == v;
    }
  }

  lemma NewRowLinked(g: Edges, m: nat, r: nat, v: nat)
    requires m <= |g.src| == |g.dst| == |g.strength|
    ensures HasCol(NewRow(Grouped(NewEntries(g, m)), r), v) <==> Linked(g, r, v, m, |g.src|)
  {
    hide NewRow, HasCol, HasEntry, Linked, NewEntries, Grouped;
    GroupedFacts(NewEntries(g, m), r, v);
    NewRowCol(Grouped(NewEntries(g, m)), r, v);
    NewEntriesLinked(g, m, r, v);
  }

  lemma NewRowWeight(g: Edges, m: nat, r: nat, i: nat)
    requires m <= |g.src| == |g.dst| == |g.strength| && i < |NewRow(Grouped(NewEntries(g, m)), r)|
    ensures var cell := NewRow(Grouped(NewEntries(g, m)), r)[i]; cell.weight == PairSum(g, r, cell.col, m, |g.src|)
  {
    hide FirstOf, Grouped, NewEntries, WeightAt, GroupSum, PairSum;
    var groups := Grouped(NewEntries(g, m));
    GroupedFacts(NewEntries(g, m), r, NewRow(groups, r)[i].col);
    NewRowOrdered(groups, r);
    var j := FirstOf(groups, r) + i;
    assert groups[j].row == r;
    WeightAtIndex(groups, j);
    NewEntriesSum(g, m, r, groups[j].col);
  }

  /** Columns and weights of a new row. */
  lemma NewRowFacts(groups: seq<Entry>, g: Edges, m: nat, r: nat)
    requires m <= |g.src| == |g.dst| == |g.strength| && groups == Grouped(NewEntries(g, m))
    ensures SortedGroups(groups) && Increasing(NewRow(groups, r))
    ensures forall v :: HasCol(NewRow(groups, r), v) <==> Linked(g, r, v, m, |g.src|)
    ensures forall i :: 0 <= i < |NewRow(groups, r)| ==>
              NewRow(groups, r)[i].weight == PairSum(g, r, NewRow(groups, r)[i].col, m, |g.src|)
  {
    hide NewRow, HasCol, HasEntry, Linked, NewEntries, Grouped, PairSum;
    GroupedFacts(NewEntries(g, m), 0, 0);
    NewRowOrdered(groups, r);
    forall v ensures HasCol(NewRow(groups, r), v) <==> Linked(g, r, v, m, |g.src|) { NewRowLinked(g, m, r, v); }
    forall i | 0 <= i < |NewRow(groups, r)|
      ensures NewRow(groups, r)[i].weight == PairSum(g, r, NewRow(groups, r)[i].col, m, |g.src|)
    {
      NewRowWeight(g, m, r, i);
    }
  }

  // ----- a build from scratch -----

  /** `_csr` on every directed entry: sorted by (row, col), parallel entries summed. */
  function Fresh(g: Edges, n: nat): Csr
    requires |g.src| == |g.dst| == |g.strength|
  {
    var groups := Grouped(NewEntries(g, 0));
    Csr(seq(n + 1, r requires 0 <= r <= n => FirstOf(groups, r)),
        seq(|groups|, i requires 0 <= i < |groups| => Cell(groups[i].col, groups[i].weight)))
  }

  lemma {:induction false} FirstOfAll(groups: seq<Entry>, r: nat)
    requires forall i :: 0 <= i < |groups| ==> groups[i].row < r
    ensures FirstOf(groups, r) == |groups|
  {
    if groups != [] { FirstOfAll(groups[..|groups| - 1], r); }
  }

  lemma GroupRowsBelow(g: Edges, m: nat, n: nat)
    requires g.Valid(n) && m <= |g.src|
    ensures forall i :: 0 <= i < |Grouped(NewEntries(g, m))| ==> Grouped(NewEntries(g, m))[i].row < n
    ensures FirstOf(Grouped(NewEntries(g, m)), 0) == 0
            && FirstOf(Grouped(NewEntries(g, m)), n) == |Grouped(NewEntries(g, m))|
  {
    hide Grouped, FirstOf, NewEntries;
    var groups := Grouped(NewEntries(g, m));
    forall i | 0 <= i < |groups| ensures groups[i].row < n {
      GroupedFacts(NewEntries(g, m), groups[i].row, groups[i].col);
      assert HasEntry(groups, groups[i].row, groups[i].col);
      NewEntriesLinked(g, m, groups[i].row, groups[i].col);
    }
    GroupedFacts(NewEntries(g, m), 0, 0);
    FirstOfSplits(groups, 0);
    FirstOfAll(groups, n);
  }

  /** The build from scratch is the CSR of the edges. */
  lemma FreshIsCsr(g: Edges, n: nat)
    requires g.Valid(n)
    ensures IsCsr(Fresh(g, n), g, n)
  {
    hide Grouped, FirstOf, NewEntries, HasCol, Linked, PairSum, Increasing;
    var groups, c := Grouped(NewEntries(g, 0)), Fresh(g, n);
    GroupRowsBelow(g, 0, n);
    NewRowFacts(groups, g, 0, 0);
    forall u: nat, v: nat | u <= v <= n ensures c.offsets[u] <= c.offsets[v] { FirstOfMonotone(groups, u, v); }
    forall u: nat | u < n ensures RowOffsets(c, u) && ColsOf(Row(c, u), g, u) && WeightsOf(Row(c, u), g, u) {
      NewRowFacts(groups, g, 0, u);
      FirstOfMonotone(groups, u, u + 1);
      assert Row(c, u) == NewRow(groups, u);
    }
  }

  // ----- the merge of the cached rows with the new ones -----

  /** Rows below `r`: each cached row followed by its new entries. */
  function Merged(c: Csr, groups: seq<Entry>, r: nat): seq<Cell>
    requires |c.offsets| >= 1
  {
    if r == 0 then [] else Merged(c, groups, r - 1) + OldRow(c, r - 1) + NewRow(groups, r - 1)
  }

  function MergedCsr(c: Csr, groups: seq<Entry>, n: nat): Csr
    requires |c.offsets| >= 1
  {
    Csr(seq(n + 1, r requires 0 <= r <= n => OldOffset(c, r) + FirstOf(groups, r)), Merged(c, groups, n))
  }

  lemma OldRowLength(c: Csr, n0: nat, r: nat)
    requires Framed(c, n0)
    ensures OldOffset(c, r) <= OldOffset(c, r + 1) <= |c.cells|
    ensures |OldRow(c, r)| == OldOffset(c, r + 1) - OldOffset(c, r)
    ensures r >= n0 ==> OldRow(c, r) == []
  {
  }

  lemma {:induction false} MergedLength(c: Csr, groups: seq<Entry>, n0: nat, r: nat)
    requires Framed(c, n0) && SortedGroups(groups) && FirstOf(groups, 0) == 0
    ensures |Merged(c, groups, r)| == OldOffset(c, r) + FirstOf(groups, r)
  {
    if r > 0 {
      MergedLength(c, groups, n0, r - 1);
      OldRowLength(c, n0, r - 1);
      NewRowOrdered(groups, r - 1);
    }
  }

  lemma {:induction false} MergedGrows(c: Csr, groups: seq<Entry>, r: nat, s: nat)
    requires |c.offsets| >= 1 && r <= s
    ensures Merged(c, groups, r) <= Merged(c, groups, s)
    decreases s
  {
    hide OldRow, NewRow;
    if r < s { MergedGrows(c, groups, r, s - 1); }
  }

  /** Row `u` of the merge is the cached row followed by the new entries. */
  lemma MergedRow(c: Csr, groups: seq<Entry>, n0: nat, n: nat, u: nat)
    requires Framed(c, n0) && SortedGroups(groups) && FirstOf(groups, 0) == 0 && u < n
    ensures RowOffsets(MergedCsr(c, groups, n), u)
    ensures Row(MergedCsr(c, groups, n), u) == OldRow(c, u) + NewRow(groups, u)
  {
    hide FirstOf, OldOffset, OldRow, NewRow, SortedGroups;
    MergedLength(c, groups, n0, u);
    MergedLength(c, groups, n0, u + 1);
    MergedLength(c, groups, n0, n);
    MergedGrows(c, groups, u + 1, n);
    var upto, own, cells := Merged(c, groups, u), OldRow(c, u) + NewRow(groups, u), Merged(c, groups, n);
    assert Merged(c, groups, u + 1) == upto + own;
    assert cells[|upto|..|upto| + |own|] == cells[..|upto| + |own|][|upto|..];
  }

  lemma HasColConcat(a: seq<Cell>, b: seq<Cell>, v: nat)
    ensures HasCol(a + b, v) <==> HasCol(a, v) || HasCol(b, v)
  {
    if HasCol(a, v) {
      var i :| 0 <= i < |a| && a[i].col == v;
      assert (a + b)[i].col == v;
    }
    if HasCol(b, v) {
      var i :| 0 <= i < |b| && b[i].col == v;
      assert (a + b)[|a| + i].col == v;
    }
  }

  ghost predicate NothingNewAmong(g: Edges, m: nat, n0: nat)
    requires |g.src| == |g.dst|
  {
    forall e :: m <= e < |g.src| ==> !(g.src[e] < n0 && g.dst[e] < n0)
  }

  /** `prefix` is the first edges of `g`, all among the first `n0` nodes. */
  ghost predicate IsPrefix(prefix: Edges, g: Edges, n0: nat) {
    && prefix.Valid(n0)
    && prefix.src <= g.src && prefix.dst <= g.dst && prefix.strength <= g.strength
  }

  lemma PrefixSum(prefix: Edges, g: Edges, n0: nat, u: nat, v: nat)
    requires IsPrefix(prefix, g, n0) && |g.src| == |g.dst| == |g.strength|
    ensures PairSum(g, u, v, 0, |g.src|)
            == PairSum(prefix, u, v, 0, |prefix.src|) + PairSum(g, u, v, |prefix.src|, |g.src|)
    ensures Linked(g, u, v, 0, |g.src|) <==>
              Linked(prefix, u, v, 0, |prefix.src|) || Linked(g, u, v, |prefix.src|, |g.src|)
  {
    var m := |prefix.src|;
    SumSplit(0, m, |g.src|, PairTerm(g, u, v));
    SumSame(0, m, PairTerm(g, u, v), PairTerm(prefix, u, v));
    if Linked(prefix, u, v, 0, m) {
      var e :| 0 <= e < m && Joins(prefix, e, u, v);
      assert Joins(g, e, u, v);
    }
    if Linked(g, u, v, 0, |g.src|) {
      var e :| 0 <= e < |g.src| && Joins(g, e, u, v);
      if e < m { assert Joins(prefix, e, u, v); }
    }
  }

  lemma UnlinkedSum(g: Edges, u: nat, v: nat, lo: nat, hi: nat)
    requires hi <= |g.src| == |g.dst| == |g.strength| && !Linked(g, u, v, lo, hi)
    ensures PairSum(g, u, v, lo, hi) == 0.0
  {
    forall e | lo <= e < hi ensures PairTerm(g, u, v)(e) == 0.0 { assert !Joins(g, e, u, v); }
    SumZero(lo, hi, PairTerm(g, u, v));
  }

  /** Where a pair's edges lie, when no new edge joins two old nodes. */
  lemma PairSide(prefix: Edges, g: Edges, n0: nat, u: nat, v: nat)
    requires IsPrefix(prefix, g, n0) && |g.src| == |g.dst| == |g.strength| && NothingNewAmong(g, |prefix.src|, n0)
    ensures Linked(prefix, u, v, 0, |prefix.src|) ==> u < n0 && v < n0
    ensures Linked(g, u, v, |prefix.src|, |g.src|) ==> !(u < n0 && v < n0)
    ensures u < n0 && v < n0 ==> PairSum(g, u, v, 0, |g.src|) == PairSum(prefix, u, v, 0, |prefix.src|)
    ensures !(u < n0 && v < n0) ==> PairSum(g, u, v, 0, |g.src|) == PairSum(g, u, v, |prefix.src|, |g.src|)
  {
    var m := |prefix.src|;
    PrefixSum(prefix, g, n0, u, v);
    if u < n0 && v < n0 {
      assert !Linked(g, u, v, m, |g.src|);
      UnlinkedSum(g, u, v, m, |g.src|);
    } else {
      assert !Linked(prefix, u, v, 0, m);
      UnlinkedSum(prefix, u, v, 0, m);
    }
  }

  lemma MergedRowCols(a: seq<Cell>, b: seq<Cell>, prefix: Edges, g: Edges, n0: nat, u: nat)
    requires IsPrefix(prefix, g, n0) && |g.src| == |g.dst| == |g.strength| && NothingNewAmong(g, |prefix.src|, n0)
    requires ColsOf(a, prefix, u) && Increasing(b)
    requires forall v :: HasCol(b, v) <==> Linked(g, u, v, |prefix.src|, |g.src|)
    ensures ColsOf(a + b, g, u)
  {
    forall v ensures HasCol(a + b, v) <==> Linked(g, u, v, 0, |g.src|) {
      HasColConcat(a, b, v);
      PrefixSum(prefix, g, n0, u, v);
    }
    var row := a + b;
    forall i, j | 0 <= i < j < |row| ensures row[i].col < row[j].col {
      if i < |a| && j >= |a| {
        assert HasCol(a, row[i].col) && b[j - |a|] == row[j] && HasCol(b, row[j].col);
        PairSide(prefix, g, n0, u, row[i].col);
        PairSide(prefix, g, n0, u, row[j].col);
      }
    }
  }

  lemma MergedRowWeights(a: seq<Cell>, b: seq<Cell>, prefix: Edges, g: Edges, n0: nat, u: nat)
    requires IsPrefix(prefix, g, n0) && |g.src| == |g.dst| == |g.strength| && NothingNewAmong(g, |prefix.src|, n0)
    requires ColsOf(a, prefix, u) && WeightsOf(a, prefix, u)
    requires forall v :: HasCol(b, v) <==> Linked(g, u, v, |prefix.src|, |g.src|)
    requires forall i :: 0 <= i < |b| ==> b[i].weight == PairSum(g, u, b[i].col, |prefix.src|, |g.src|)
    ensures WeightsOf(a + b, g, u)
  {
    hide PairSum, Linked, IsPrefix;
    var row := a + b;
    forall i | 0 <= i < |row| ensures row[i].weight == PairSum(g, u, row[i].col, 0, |g.src|) {
      PairSide(prefix, g, n0, u, row[i].col);
      if i < |a| { assert HasCol(a, row[i].col); } else { assert b[i - |a|] == row[i] && HasCol(b, row[i].col); }
    }
  }

  lemma EmptyRowOf(prefix: Edges, n0: nat, u: nat)
    requires prefix.Valid(n0) && u >= n0
    ensures ColsOf([], prefix, u) && WeightsOf([], prefix, u)
  {
    forall v ensures !Linked(prefix, u, v, 0, |prefix.src|) {}
  }

  /** Extending a CSR row by row gives the CSR of the longer edge list. */
  lemma MergedIsCsr(c: Csr, prefix: Edges, g: Edges, n0: nat, n: nat)
    requires IsPrefix(prefix, g, n0) && g.Valid(n) && n0 <= n && IsCsr(c, prefix, n0)
    requires NothingNewAmong(g, |prefix.src|, n0)
    ensures IsCsr(MergedCsr(c, Grouped(NewEntries(g, |prefix.src|)), n), g, n)
  {
    hide FirstOf, NewEntries, Grouped, NewRow, HasCol, Linked, PairSum, Increasing, NothingNewAmong, ColsOf, WeightsOf;
    var m := |prefix.src|;
    var groups := Grouped(NewEntries(g, m));
    var merged := MergedCsr(c, groups, n);
    GroupRowsBelow(g, m, n);
    NewRowFacts(groups, g, m, 0);
    MergedLength(c, groups, n0, n);
    forall u: nat, v: nat | u <= v <= n ensures merged.offsets[u] <= merged.offsets[v] {
      FirstOfMonotone(groups, u, v);
    }
    forall u: nat | u < n
      ensures RowOffsets(merged, u) && ColsOf(Row(merged, u), g, u) && WeightsOf(Row(merged, u), g, u)
    {
      MergedRow(c, groups, n0, n, u);
      NewRowFacts(groups, g, m, u);
      if u < n0 { assert OldRow(c, u) == Row(c, u); } else { EmptyRowOf(prefix, n0, u); OldRowLength(c, n0, u); }
      MergedRowCols(OldRow(c, u), NewRow(groups, u), prefix, g, n0, u);
      MergedRowWeights(OldRow(c, u), NewRow(groups, u), prefix, g, n0, u);
    }
  }

  // ----- `_pair_weight` -----

  ghost function SliceTerm(g: Edges, edges: seq<nat>, v: nat): int -> real {
    i => if 0 <= i < |edges| && edges[i] < |g.dst| && edges[i] < |g.strength| && g.dst[edges[i]] == v
      then g.strength[edges[i]] else 0.0
  }

  ghost function SliceSum(g: Edges, edges: seq<nat>, v: nat): real { Sum(0, |edges|, SliceTerm(g, edges, v)) }

  lemma {:induction false} GroupSumsForward(g: Edges, u: nat, v: nat, k: nat)
    requires k <= |g.src| == |g.dst| == |g.strength|
    ensures SliceSum(g, FlatVrs.Group(g.src, u, k), v) == Sum(0, k, ForwardTerm(g, u, v))
  {
    if k > 0 {
      hide SliceSum, Sum, ForwardTerm;
      GroupSumsForward(g, u, v, k - 1);
      OneMoreEdge(g, FlatVrs.Group(g.src, u, k - 1), u, v, k - 1);
    }
  }

  lemma OneMoreEdge(g: Edges, init: seq<nat>, u: nat, v: nat, e: nat)
    requires e < |g.src| == |g.dst| == |g.strength|
    requires SliceSum(g, init, v) == Sum(0, e, ForwardTerm(g, u, v))
    ensures SliceSum(g, init + (if g.src[e] == u then [e] else []), v) == Sum(0, e + 1, ForwardTerm(g, u, v))
  {
    var edges := init + (if g.src[e] == u then [e] else []);
    SumSame(0, |init|, SliceTerm(g, init, v), SliceTerm(g, edges, v));
  }

  /** Strength of the edges a -> b, read from the slice of `a`'s outgoing edges. */
  method ForwardWeight(g: Edges, n: nat, a: nat, b: nat) returns (total: real)
    requires g.Valid(n) && a < n
    ensures total == Sum(0, |g.src|, ForwardTerm(g, a, b))
  {
    FlatVrs.SliceIsGroup(g.src, a, n);
    var edges := FlatVrs.Order(g.src, n)[FlatVrs.Pointer(g.src, a)..FlatVrs.Pointer(g.src, a + 1)];
    GroupSumsForward(g, a, b, |g.src|);
    hide FlatVrs.Order, FlatVrs.Pointer;
    total := 0.0;
    for i := 0 to |edges|
      invariant total == Sum(0, i, SliceTerm(g, edges, b))
    {
      if g.dst[edges[i]] == b { total := total + g.strength[edges[i]]; }
    }
  }

  /** Summed weight of entry (u, v): the flat edges u -> v, then v -> u. */
  method PairWeight(g: Edges, n: nat, u: nat, v: nat) returns (total: real)
    requires g.Valid(n) && u < n && v < n
    ensures total == PairSum(g, u, v, 0, |g.src|)
  {
    var forward := ForwardWeight(g, n, u, v);
    var back := ForwardWeight(g, n, v, u);
    PairIsBothWays(g, u, v, 0, |g.src|);
    total := forward + back;
  }

  // ----- filling the arrays -----

  /** Old cells shift by the new entries of earlier rows. */
  method PlaceOld(c: Csr, start: nat, stop: nat, shift: nat, out: array<Cell>)
    requires start <= stop <= |c.cells| && stop + shift <= out.Length
    modifies out
    ensures out[..stop + shift] == old(out[..start + shift]) + c.cells[start..stop]
  {
    ghost var done := out[..start + shift];
    for i := start to stop
      invariant out[..start + shift] == done
      invariant forall t :: start + shift <= t < i + shift ==> out[t] == c.cells[t - shift]
    {
      out[i + shift] := c.cells[i];
    }
  }

  /** New cells follow the old ones of their row. */
  method PlaceNew(groups: seq<Entry>, first: nat, last: nat, at: nat, out: array<Cell>)
    requires first <= last <= |groups| && at + (last - first) <= out.Length
    modifies out
    ensures |out[..at + (last - first)]| == at + (last - first) && out[..at] == old(out[..at])
    ensures forall t :: at <= t < at + (last - first) ==>
              out[t] == Cell(groups[first + (t - at)].col, groups[first + (t - at)].weight)
  {
    ghost var done := out[..at];
    for j := first to last
      invariant out[..at] == done
      invariant forall t :: at <= t < at + (j - first) ==>
                  out[t] == Cell(groups[first + (t - at)].col, groups[first + (t - at)].weight)
    {
      out[at + (j - first)] := Cell(groups[j].col, groups[j].weight);
    }
  }

  method PlaceRow(c: Csr, groups: seq<Entry>, n0: nat, r: nat, out: array<Cell>)
    requires Framed(c, n0) && SortedGroups(groups) && out.Length == |c.cells| + |groups|
    modifies out
    ensures OldOffset(c, r) + FirstOf(groups, r) <= OldOffset(c, r + 1) + FirstOf(groups, r + 1) <= out.Length
    ensures out[..OldOffset(c, r + 1) + FirstOf(groups, r + 1)]
         == old(out[..OldOffset(c, r) + FirstOf(groups, r)]) + OldRow(c, r) + NewRow(groups, r)
  {
    assert |c.offsets| >= 1;
    hide FirstOf, SortedGroups, Framed, OldOffset, Increasing;
    NewRowOrdered(groups, r);
    OldRowLength(c, n0, r);
    var first, last, stop := FirstOf(groups, r), FirstOf(groups, r + 1), OldOffset(c, r + 1);
    PlaceOld(c, OldOffset(c, r), stop, first, out);
    ghost var kept := out[..stop + first];
    PlaceNew(groups, first, last, stop + first, out);
    assert out[..stop + last] == kept + NewRow(groups, r);
  }

  method PlaceRows(c: Csr, groups: seq<Entry>, n0: nat, n: nat) returns (out: array<Cell>)
    requires Framed(c, n0) && n0 <= n && SortedGroups(groups) && FirstOf(groups, 0) == 0
             && FirstOf(groups, n) == |groups|
    ensures fresh(out) && out[..] == Merged(c, groups, n)
  {
    hide FirstOf, SortedGroups, OldRow, NewRow;
    out := new Cell[|c.cells| + |groups|](_ => Cell(0, 0.0));
    for r := 0 to n
      invariant OldOffset(c, r) + FirstOf(groups, r) <= out.Length
      invariant out[..OldOffset(c, r) + FirstOf(groups, r)] == Merged(c, groups, r)
    {
      PlaceRow(c, groups, n0, r, out);
    }
    assert out[..] == out[..OldOffset(c, n) + FirstOf(groups, n)];
  }

  /** `np.searchsorted` on one row. */
  method SearchSorted(out: array<Cell>, lo: nat, hi: nat, b: nat) returns (k: nat)
    requires lo <= hi <= out.Length && forall i, j :: lo <= i < j < hi ==> out[i].col < out[j].col
    ensures lo <= k <= hi
    ensures forall i :: lo <= i < k ==> out[i].col < b
    ensures forall i :: k <= i < hi ==> out[i].col >= b
  {
    k := lo;
    var high := hi;
    while k < high
      invariant lo <= k <= high <= hi
      invariant forall i :: lo <= i < k ==> out[i].col < b
      invariant forall i :: high <= i < hi ==> out[i].col >= b
    {
      var mid := (k + high) / 2;
      if out[mid].col < b { k := mid + 1; } else { high := mid; }
    }
  }

  // ----- the strength edits -----

  /** Some edit before the `k`-th is of an edge joining `u` and `v`. */
  ghost predicate Edited(g: Edges, edits: seq<(nat, real)>, k: nat, u: nat, v: nat)
    requires k <= |edits| && |g.src| == |g.dst| && forall t :: 0 <= t < |edits| ==> edits[t].0 < |g.src|
  {
    exists t :: 0 <= t < k && Joins(g, edits[t].0, u, v)
  }

  ghost predicate Same(was: Edges, g: Edges) { was.src == g.src && was.dst == g.dst && |was.strength| == |g.strength| }

  /** After `k` edits a cell holds the full weight, or the merged one if no edit concerns it. */
  ghost predicate Recomputed(was: Edges, g: Edges, edits: seq<(nat, real)>, k: nat, u: nat, cell: Cell)
    requires k <= |edits| && |g.src| == |g.dst| && forall t :: 0 <= t < |edits| ==> edits[t].0 < |g.src|
  {
    || cell.weight == PairSum(g, u, cell.col, 0, |g.src|)
    || (cell.weight == PairSum(was, u, cell.col, 0, |g.src|) && !Edited(g, edits, k, u, cell.col))
  }

  ghost predicate RowRecomputed(was: Edges, g: Edges, edits: seq<(nat, real)>, k: nat, u: nat, row: seq<Cell>)
    requires k <= |edits| && |g.src| == |g.dst| && forall t :: 0 <= t < |edits| ==> edits[t].0 < |g.src|
  {
    forall i :: 0 <= i < |row| ==> Recomputed(was, g, edits, k, u, row[i])
  }

  /** Every row lists its neighbours; only weights are still being corrected. */
  ghost predicate Shaped(c: Csr, g: Edges, n: nat)
    requires g.Valid(n)
  {
    Framed(c, n) && forall u :: 0 <= u < n ==> RowOffsets(c, u) && ColsOf(Row(c, u), g, u)
  }

  /** Rows of `after` are those of `before`, but entry (a, b) holds its full weight. */
  ghost predicate OneCellSet(before: Csr, after: Csr, g: Edges, n: nat, a: nat, b: nat)
    requires g.Valid(n) && Shaped(before, g, n) && Shaped(after, g, n)
  {
    forall u :: 0 <= u < n ==> RowSet(Row(before, u), Row(after, u), g, u, u == a, b)
  }

  ghost predicate RowSet(before: seq<Cell>, after: seq<Cell>, g: Edges, u: nat, own: bool, b: nat) {
    && |after| == |before|
    && forall i :: 0 <= i < |after| ==>
         && after[i].col == before[i].col
         && (if own && after[i].col == b then after[i].weight == PairSum(g, u, b, 0, |g.src|)
              else after[i] == before[i])
  }

  lemma SameColsOf(before: seq<Cell>, after: seq<Cell>, g: Edges, u: nat, own: bool, b: nat)
    requires |g.src| == |g.dst| && ColsOf(before, g, u) && RowSet(before, after, g, u, own, b)
    ensures ColsOf(after, g, u)
  {
    forall v ensures HasCol(after, v) <==> HasCol(before, v) {
      if HasCol(after, v) {
        var i :| 0 <= i < |after| && after[i].col == v;
        assert before[i].col == v;
      }
      if HasCol(before, v) {
        var i :| 0 <= i < |before| && before[i].col == v;
        assert after[i].col == v;
      }
    }
  }

  /** One position of row `a` rewritten. */
  lemma OneWrite(before: Csr, after: Csr, g: Edges, n: nat, a: nat, b: nat, k: nat)
    requires g.Valid(n) && Shaped(before, g, n) && a < n
    requires before.offsets[a] <= k < before.offsets[a + 1] && before.cells[k].col == b
    requires after == before.(cells := before.cells[k := Cell(b, PairSum(g, a, b, 0, |g.src|))])
    ensures Shaped(after, g, n) && OneCellSet(before, after, g, n, a, b)
  {
    hide PairSum, ColsOf;
    forall u: nat | u < n
      ensures RowOffsets(after, u) && RowSet(Row(before, u), Row(after, u), g, u, u == a, b)
              && ColsOf(Row(after, u), g, u)
    {
      assert RowOffsets(before, u);
      assert u < a ==> before.offsets[u + 1] <= before.offsets[a];
      assert u > a ==> before.offsets[a + 1] <= before.offsets[u];
      if u == a { IncreasingOf(Row(before, a), g, a); assert Row(before, a)[k - before.offsets[a]].col == b; }
      SameColsOf(Row(before, u), Row(after, u), g, u, u == a, b);
    }
  }

  lemma IncreasingOf(row: seq<Cell>, g: Edges, u: nat)
    requires |g.src| == |g.dst| && ColsOf(row, g, u)
    ensures Increasing(row)
  {
  }

  /** One direction of an edit: find the entry by binary search and recompute it. */
  method EditCell(offsets: seq<nat>, out: array<Cell>, g: Edges, n: nat, a: nat, b: nat) returns (found: bool)
    requires g.Valid(n) && a < n && b < n && Shaped(Csr(offsets, out[..]), g, n)
    modifies out
    ensures Shaped(Csr(offsets, out[..]), g, n)
    ensures found <==> Linked(g, a, b, 0, |g.src|)
    ensures found ==> OneCellSet(Csr(offsets, old(out[..])), Csr(offsets, out[..]), g, n, a, b)
    ensures !found ==> out[..] == old(out[..])
  {
    ghost var before := Csr(offsets, out[..]);
    ghost var row := Row(before, a);
    assert RowOffsets(before, a) && ColsOf(row, g, a);
    hide Shaped, Linked, PairSum, OneCellSet;
    var lo, hi := offsets[a], offsets[a + 1];
    assert forall i :: lo <= i < hi ==> out[i] == row[i - lo];
    var k := SearchSorted(out, lo, hi, b);
    found := k < hi && out[k].col == b;
    assert HasCol(row, b) <==> found by {
      if found { assert row[k - lo].col == b; }
      if HasCol(row, b) {
        var i :| 0 <= i < |row| && row[i].col == b;
        assert out[lo + i].col == b;
      }
    }
    if found {
      var weight := PairWeight(g, n, a, b);
      out[k] := Cell(b, weight);
      assert Csr(offsets, out[..]) == before.(cells := before.cells[k := Cell(b, weight)]);
      OneWrite(before, Csr(offsets, out[..]), g, n, a, b, k);
    }
  }

  /** Both directions of the next edit are recomputed. */
  lemma EditStep(before: seq<Cell>, mid: seq<Cell>, after: seq<Cell>, was: Edges, g: Edges, edits: seq<(nat, real)>,
      k: nat, r: nat)
    requires |g.src| == |g.dst| && k < |edits| && forall t :: 0 <= t < |edits| ==> edits[t].0 < |g.src|
    requires var e := edits[k].0;
             RowSet(before, mid, g, r, r == g.src[e], g.dst[e]) && RowSet(mid, after, g, r, r == g.dst[e], g.src[e])
    requires RowRecomputed(was, g, edits, k, r, before)
    ensures RowRecomputed(was, g, edits, k + 1, r, after)
  {
    hide PairSum;
    forall i | 0 <= i < |after| ensures Recomputed(was, g, edits, k + 1, r, after[i]) {
      assert Recomputed(was, g, edits, k, r, before[i]);
      var e := edits[k].0;
      var v := after[i].col;
      if (r == g.src[e] && v == g.dst[e]) || (r == g.dst[e] && v == g.src[e]) {
        assert after[i].weight == PairSum(g, r, v, 0, |g.src|);
      } else {
        assert after[i] == before[i] && !Joins(g, e, r, v);
      }
    }
  }

  /** What the edit loop maintains. */
  ghost predicate Correcting(c: Csr, was: Edges, g: Edges, n: nat, edits: seq<(nat, real)>, k: nat)
    requires g.Valid(n) && k <= |edits| && forall t :: 0 <= t < |edits| ==> edits[t].0 < |g.src|
  {
    Shaped(c, g, n) && forall u :: 0 <= u < n ==> RowRecomputed(was, g, edits, k, u, Row(c, u))
  }

  lemma EditedRows(before: Csr, mid: Csr, after: Csr, was: Edges, g: Edges, n: nat, edits: seq<(nat, real)>, k: nat)
    requires g.Valid(n) && k < |edits| && forall t :: 0 <= t < |edits| ==> edits[t].0 < |g.src|
    requires Correcting(before, was, g, n, edits, k) && Shaped(mid, g, n) && Shaped(after, g, n)
    requires OneCellSet(before, mid, g, n, g.src[edits[k].0], g.dst[edits[k].0])
    requires OneCellSet(mid, after, g, n, g.dst[edits[k].0], g.src[edits[k].0])
    ensures Correcting(after, was, g, n, edits, k + 1)
  {
    hide RowSet, RowRecomputed, ColsOf;
    forall u: nat | u < n ensures RowRecomputed(was, g, edits, k + 1, u, Row(after, u)) {
      assert RowOffsets(before, u) && RowOffsets(mid, u) && RowOffsets(after, u);
      EditStep(Row(before, u), Row(mid, u), Row(after, u), was, g, edits, k, u);
    }
  }

  method ApplyEdits(offsets: seq<nat>, out: array<Cell>, g: Edges, n: nat, edits: seq<(nat, real)>, ghost was: Edges)
    returns (missing: bool)
    requires g.Valid(n) && forall t :: 0 <= t < |edits| ==> edits[t].0 < |g.src|
    requires Correcting(Csr(offsets, out[..]), was, g, n, edits, 0)
    modifies out
    ensures !missing && Correcting(Csr(offsets, out[..]), was, g, n, edits, |edits|)
  {
    hide Shaped, OneCellSet;
    missing := false;
    for k := 0 to |edits|
      invariant Correcting(Csr(offsets, out[..]), was, g, n, edits, k)
    {
      var u, v := g.src[edits[k].0], g.dst[edits[k].0];
      assert Joins(g, edits[k].0, u, v) && Joins(g, edits[k].0, v, u);
      ghost var before := Csr(offsets, out[..]);
      var found := EditCell(offsets, out, g, n, u, v);
      if !found { missing := true; return; }
      ghost var mid := Csr(offsets, out[..]);
      found := EditCell(offsets, out, g, n, v, u);
      if !found { missing := true; return; }
      EditedRows(before, mid, Csr(offsets, out[..]), was, g, n, edits, k);
    }
  }

  // ----- the extension -----

  datatype Extension = Extended(csr: Csr) | OrderViolated | EditMissing

  function Prefix(g: Edges, m: nat, oldStrength: seq<real>): Edges
    requires m <= |g.src| == |g.dst|
  {
    Edges(g.src[..m], g.dst[..m], oldStrength)
  }

  lemma UneditedSum(was: Edges, g: Edges, m: nat, edits: seq<(nat, real)>, u: nat, v: nat)
    requires Same(was, g) && |g.src| == |g.dst| == |g.strength| && m <= |g.src|
    requires forall t :: 0 <= t < |edits| ==> edits[t].0 < |g.src|
    requires forall e :: 0 <= e < |g.src| && was.strength[e] != g.strength[e] ==>
               exists t :: 0 <= t < |edits| && edits[t].0 == e
    requires !Edited(g, edits, |edits|, u, v)
    ensures PairSum(was, u, v, 0, |g.src|) == PairSum(g, u, v, 0, |g.src|)
  {
    forall e | 0 <= e < |g.src| ensures PairTerm(was, u, v)(e) == PairTerm(g, u, v)(e) {
      if was.strength[e] != g.strength[e] {
        var t :| 0 <= t < |edits| && edits[t].0 == e;
        assert !Joins(g, edits[t].0, u, v);
      }
    }
    SumSame(0, |g.src|, PairTerm(was, u, v), PairTerm(g, u, v));
  }

  lemma CorrectedIsCsr(c: Csr, was: Edges, g: Edges, n: nat, edits: seq<(nat, real)>)
    requires Same(was, g) && g.Valid(n) && forall t :: 0 <= t < |edits| ==> edits[t].0 < |g.src|
    requires forall e :: 0 <= e < |g.src| && was.strength[e] != g.strength[e] ==>
               exists t :: 0 <= t < |edits| && edits[t].0 == e
    requires Correcting(c, was, g, n, edits, |edits|)
    ensures IsCsr(c, g, n)
  {
    hide PairSum, ColsOf, Edited;
    forall u: nat | u < n ensures RowOffsets(c, u) && ColsOf(Row(c, u), g, u) && WeightsOf(Row(c, u), g, u) {
      var row := Row(c, u);
      assert RowRecomputed(was, g, edits, |edits|, u, row);
      forall i | 0 <= i < |row| ensures row[i].weight == PairSum(g, u, row[i].col, 0, |g.src|) {
        assert Recomputed(was, g, edits, |edits|, u, row[i]);
        if !Edited(g, edits, |edits|, u, row[i].col) { UneditedSum(was, g, 0, edits, u, row[i].col); }
      }
    }
  }

  lemma MergedIsCorrecting(c: Csr, was: Edges, g: Edges, n: nat, edits: seq<(nat, real)>)
    requires Same(was, g) && g.Valid(n) && was.Valid(n) && forall t :: 0 <= t < |edits| ==> edits[t].0 < |g.src|
    requires IsCsr(c, was, n)
    ensures Correcting(c, was, g, n, edits, 0)
  {
    hide PairSum;
    forall u: nat, v: nat ensures Linked(was, u, v, 0, |g.src|) <==> Linked(g, u, v, 0, |g.src|) {
      forall e | 0 <= e < |g.src| ensures Joins(was, e, u, v) <==> Joins(g, e, u, v) {}
    }
    forall u: nat | u < n ensures ColsOf(Row(c, u), g, u) && RowRecomputed(was, g, edits, 0, u, Row(c, u)) {
      assert ColsOf(Row(c, u), was, u) && WeightsOf(Row(c, u), was, u);
    }
  }

  lemma NewAmongShows(g: Edges, m: nat, n0: nat)
    requires m <= |g.src| == |g.dst| == |g.strength|
    ensures NothingNewAmong(g, m, n0) <==>
            forall i :: 0 <= i < |Grouped(NewEntries(g, m))| ==>
              !(Grouped(NewEntries(g, m))[i].row < n0 && Grouped(NewEntries(g, m))[i].col < n0)
  {
    hide Grouped, NewEntries;
    var groups := Grouped(NewEntries(g, m));
    forall i | 0 <= i < |groups| ensures Linked(g, groups[i].row, groups[i].col, m, |g.src|) {
      GroupedFacts(NewEntries(g, m), groups[i].row, groups[i].col);
      NewEntriesLinked(g, m, groups[i].row, groups[i].col);
    }
    forall e | m <= e < |g.src|
      ensures exists i :: 0 <= i < |groups| && groups[i].row == g.src[e] && groups[i].col == g.dst[e]
    {
      assert Joins(g, e, g.src[e], g.dst[e]);
      GroupedFacts(NewEntries(g, m), g.src[e], g.dst[e]);
      NewEntriesLinked(g, m, g.src[e], g.dst[e]);
    }
  }

  /** Does some new entry join two nodes of the cached prefix? */
  method OrderBroken(groups: seq<Entry>, n0: nat) returns (broken: bool)
    ensures broken <==> exists i :: 0 <= i < |groups| && groups[i].row < n0 && groups[i].col < n0
  {
    broken := false;
    for i := 0 to |groups|
      invariant broken <==> exists j :: 0 <= j < i && groups[j].row < n0 && groups[j].col < n0
    {
      if groups[i].row < n0 && groups[i].col < n0 { broken := true; }
    }
  }

  lemma SameNewEntries(was: Edges, g: Edges, m: nat)
    requires Same(was, g) && m <= |g.src| == |g.dst| == |g.strength| && was.strength[m..] == g.strength[m..]
    ensures NewEntries(was, m) == NewEntries(g, m)
  {
    forall e | m <= e < |g.src| ensures was.strength[e] == g.strength[e] {
      assert was.strength[m..][e - m] == g.strength[m..][e - m];
    }
  }

  /**
   `extended`. Given the CSR of a prefix and edits that cover every changed prefix strength, the result is
   the CSR a build from scratch gives; the one rejected case is a new edge between two old nodes.
   */
  method Extend(c: Csr, n0: nat, m: nat, g: Edges, n: nat, edits: seq<(nat, real)>, ghost oldStrength: seq<real>)
    returns (result: Extension)
    requires g.Valid(n) && n0 <= n && m <= |g.src| && |oldStrength| == m && Prefix(g, m, oldStrength).Valid(n0)
    requires c == Fresh(Prefix(g, m, oldStrength), n0)
    requires forall t :: 0 <= t < |edits| ==> edits[t].0 < |g.src|
    requires forall e :: 0 <= e < m && g.strength[e] != oldStrength[e] ==>
               exists t :: 0 <= t < |edits| && edits[t].0 == e
    ensures result == if NothingNewAmong(g, m, n0) then Extended(Fresh(g, n)) else OrderViolated
  {
    hide FirstOf, Fresh, Grouped, NewEntries, Merged, Correcting, IsCsr, NothingNewAmong;
    ghost var prefix := Prefix(g, m, oldStrength);
    ghost var was := g.(strength := oldStrength + g.strength[m..]);
    FreshIsCsr(prefix, n0);
    assert Framed(c, n0) by { IsCsrFramed(c, prefix, n0); }
    var groups := Grouped(NewEntries(g, m));
    GroupRowsBelow(g, m, n);
    NewRowFacts(groups, g, m, 0);
    MergedLength(c, groups, n0, n);
    var offsets := seq(n + 1, r requires 0 <= r <= n => OldOffset(c, r) + FirstOf(groups, r));
    var out := PlaceRows(c, groups, n0, n);
    NewAmongShows(g, m, n0);
    var broken := OrderBroken(groups, n0);
    if broken { return OrderViolated; }
    SameNewEntries(was, g, m);
    SameAmong(was, g, m, n0);
    MergedIsCsr(c, prefix, was, n0, n);
    assert Csr(offsets, out[..]) == MergedCsr(c, groups, n);
    MergedIsCorrecting(Csr(offsets, out[..]), was, g, n, edits);
    var missing := ApplyEdits(offsets, out, g, n, edits, was);
    if missing { return EditMissing; }
    CorrectedIsCsr(Csr(offsets, out[..]), was, g, n, edits);
    FreshIsCsr(g, n);
    CsrIsUnique(Csr(offsets, out[..]), Fresh(g, n), g, n);
    return Extended(Csr(offsets, out[..]));
  }

  lemma IsCsrFramed(c: Csr, g: Edges, n: nat)
    requires g.Valid(n) && IsCsr(c, g, n)
    ensures Framed(c, n)
  {
  }

  lemma SameAmong(was: Edges, g: Edges, m: nat, n0: nat)
    requires Same(was, g) && |g.src| == |g.dst|
    ensures NothingNewAmong(was, m, n0) <==> NothingNewAmong(g, m, n0)
  {
  }
}
