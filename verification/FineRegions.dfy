/**
 The fine regions of `vrs_refine.py`: every coarse region is split again, and each part takes over the previous
 fine id most of its nodes had, so that ids stay put for regions that did not change.
 */
module FineRegions {
  import opened Promotion

  type Group = (int, int)

  /** The coarse labels, which regions are left whole, and the sub-label a split gives each node. */
  datatype Split = Split(coarse: seq<int>, whole: int -> bool, local: int -> int) {
    /** The part a node belongs to. */
    function Of(u: int): Group
      requires 0 <= u < |coarse|
    {
      (coarse[u], if whole(coarse[u]) then 0 else local(u))
    }
  }

  /** Parts are labelled region by region, and within a region by sub-label. */
  predicate Before(a: Group, b: Group) { a.0 < b.0 || (a.0 == b.0 && a.1 < b.1) }

  /** The last consolidation's label of a node; new nodes have none. */
  function Previous(previous: seq<int>, u: int): int { if 0 <= u < |previous| then previous[u] else -1 }

  // ----- one part takes an id -----

  /** A previous id the part may take over. */
  predicate Wanted(held: seq<int>, claimed: set<int>, f: int) { f >= 0 && f in held && f !in claimed }

  /** Of the unclaimed previous ids the most frequent one, else a fresh id. */
  ghost predicate Taken(held: seq<int>, claimed: set<int>, next: int, id: int, next': int) {
    if exists f :: Wanted(held, claimed, f)
    then Wanted(held, claimed, id) && next' == next
         && forall f :: Wanted(held, claimed, f) ==> multiset(held)[f] <= multiset(held)[id]
    else id == next && next' == next + 1
  }

  /** `take`. */
  method Take(held: seq<int>, claimed: set<int>, next: int) returns (id: int, next': int)
    ensures Taken(held, claimed, next, id, next')
  {
    var ids := Regions(held);
    var best := -1;
    for i := 0 to |ids|
      invariant best == -1 ==> forall j :: 0 <= j < i ==> !Wanted(held, claimed, ids[j])
      invariant best != -1 ==> Wanted(held, claimed, best)
      invariant best != -1 ==>
                  forall j :: 0 <= j < i && Wanted(held, claimed, ids[j]) ==>
                    multiset(held)[ids[j]] <= multiset(held)[best]
    {
      if Wanted(held, claimed, ids[i]) && (best == -1 || multiset(held)[ids[i]] > multiset(held)[best]) {
        best := ids[i];
      }
    }
    assert forall f :: Wanted(held, claimed, f) ==> f in ids;
    if best == -1 { return next, next + 1; }
    return best, next;
  }

  // ----- the labelling -----

  ghost predicate In(s: Split, done: set<Group>, u: int) { 0 <= u < |s.coarse| && s.Of(u) in done }

  /** The label is fresh, or a node of the same part had it. */
  ghost predicate OwnOrFresh(s: Split, previous: seq<int>, fine: seq<int>, first: int, u: int)
    requires 0 <= u < |s.coarse| == |fine|
  {
    fine[u] >= first || exists w :: 0 <= w < |s.coarse| && s.Of(w) == s.Of(u) && Previous(previous, w) == fine[u]
  }

  /** All nodes of the part had the same previous id. */
  ghost predicate Uniform(s: Split, previous: seq<int>, u: int)
    requires 0 <= u < |s.coarse|
  {
    Previous(previous, u) >= 0
      && forall v :: 0 <= v < |s.coarse| && s.Of(v) == s.Of(u) ==> Previous(previous, v) == Previous(previous, u)
  }

  /** An earlier part has the label already. */
  ghost predicate Lost(s: Split, fine: seq<int>, f: int, u: int)
    requires 0 <= u < |s.coarse| == |fine|
  {
    exists v :: 0 <= v < |s.coarse| && Before(s.Of(v), s.Of(u)) && fine[v] == f
  }

  /** What holds of the parts labelled so far; `first` is the first fresh id. */
  ghost predicate Labelled(s: Split, previous: seq<int>, fine: seq<int>, done: set<Group>, claimed: set<int>,
      first: int, next: int)
  {
    && |fine| == |s.coarse| && first <= next
    && (forall u :: In(s, done, u) ==> fine[u] in claimed && OwnOrFresh(s, previous, fine, first, u))
    && (forall u, v :: In(s, done, u) && In(s, done, v) ==> (fine[u] == fine[v] <==> s.Of(u) == s.Of(v)))
    && (forall f :: f in claimed ==> f < next && exists u :: In(s, done, u) && fine[u] == f)
    && (forall u :: In(s, done, u) && Uniform(s, previous, u) ==>
           fine[u] == Previous(previous, u) || Lost(s, fine, Previous(previous, u), u))
  }

  /** Every label below `first` that a node ever had. */
  ghost predicate Above(previous: seq<int>, n: nat, first: int) {
    first >= 0 && forall u :: 0 <= u < n ==> Previous(previous, u) < first
  }

  /** `int(prev.max()) + 1`, or 0 when no node had a label. */
  method FirstFresh(previous: seq<int>, n: nat) returns (first: int)
    ensures Above(previous, n, first)
    ensures first == 0 || exists u :: 0 <= u < n && Previous(previous, u) == first - 1
  {
    first := 0;
    for u := 0 to n
      invariant Above(previous, u, first)
                && (first == 0 || exists v :: 0 <= v < u && Previous(previous, v) == first - 1)
    {
      if Previous(previous, u) >= first { first := Previous(previous, u) + 1; }
    }
  }

  /** `members[sub == k]`. */
  method Members(s: Split, g: Group) returns (nodes: seq<int>)
    ensures forall u: int :: u in nodes <==> 0 <= u < |s.coarse| && s.Of(u) == g
  {
    nodes := [];
    for u := 0 to |s.coarse|
      invariant forall v: int :: v in nodes <==> 0 <= v < u && s.Of(v) == g
    {
      if s.Of(u) == g { nodes := nodes + [u]; }
    }
  }

  function Held(previous: seq<int>, nodes: seq<int>): (held: seq<int>)
    ensures |held| == |nodes| && forall i :: 0 <= i < |nodes| ==> held[i] == Previous(previous, nodes[i])
  {
    seq(|nodes|, i requires 0 <= i < |nodes| => Previous(previous, nodes[i]))
  }

  lemma HeldBy(previous: seq<int>, nodes: seq<int>, f: int)
    ensures f in Held(previous, nodes) <==> exists u :: u in nodes && Previous(previous, u) == f
  {
    forall u | u in nodes && Previous(previous, u) == f ensures f in Held(previous, nodes) {
      var i :| 0 <= i < |nodes| && nodes[i] == u;
      assert Held(previous, nodes)[i] == f;
    }
  }

  lemma TakenFacts(previous: seq<int>, nodes: seq<int>, claimed: set<int>, next: int, id: int, next': int)
    requires Taken(Held(previous, nodes), claimed, next, id, next') && forall f :: f in claimed ==> f < next
    ensures id !in claimed && next <= next'
    ensures id == next < next' || exists w :: w in nodes && Previous(previous, w) == id
  {
    HeldBy(previous, nodes, id);
  }

  ghost predicate Relabelled(s: Split, fine: seq<int>, g: Group, id: int, fine': seq<int>) {
    |fine'| == |fine| == |s.coarse| && forall u :: 0 <= u < |fine| ==> fine'[u] == if s.Of(u) == g then id else fine[u]
  }

  lemma OwnOne(s: Split, previous: seq<int>, fine: seq<int>, done: set<Group>, first: int, g: Group, nodes: seq<int>,
      id: int, fine': seq<int>, u: int)
    requires Relabelled(s, fine, g, id, fine') && In(s, done + {g}, u)
    requires s.Of(u) != g ==> OwnOrFresh(s, previous, fine, first, u)
    requires forall u: int :: u in nodes <==> 0 <= u < |s.coarse| && s.Of(u) == g
    requires id >= first || exists w :: w in nodes && Previous(previous, w) == id
    ensures OwnOrFresh(s, previous, fine', first, u)
  {
    if s.Of(u) == g && id < first {
      var w :| w in nodes && Previous(previous, w) == id;
      assert s.Of(w) == s.Of(u);
    }
  }

  lemma ApartOne(s: Split, fine: seq<int>, done: set<Group>, claimed: set<int>, g: Group, id: int, fine': seq<int>)
    requires Relabelled(s, fine, g, id, fine') && id !in claimed
    requires forall u :: In(s, done, u) ==> fine[u] in claimed
    requires forall u, v :: In(s, done, u) && In(s, done, v) ==> (fine[u] == fine[v] <==> s.Of(u) == s.Of(v))
    ensures forall u :: In(s, done + {g}, u) ==> fine'[u] in claimed + {id}
    ensures forall u, v :: In(s, done + {g}, u) && In(s, done + {g}, v) ==>
              (fine'[u] == fine'[v] <==> s.Of(u) == s.Of(v))
  {
    forall u | In(s, done + {g}, u) ensures fine'[u] in claimed + {id} && (s.Of(u) != g ==> In(s, done, u)) {
    }
    forall u, v | In(s, done + {g}, u) && In(s, done + {g}, v) ensures fine'[u] == fine'[v] <==> s.Of(u) == s.Of(v) {
    }
  }

  lemma ClaimedOne(s: Split, fine: seq<int>, done: set<Group>, claimed: set<int>, g: Group, nodes: seq<int>, id: int,
      fine': seq<int>, f: int)
    requires Relabelled(s, fine, g, id, fine') && g !in done && nodes != [] && f in claimed + {id}
    requires forall u: int :: u in nodes <==> 0 <= u < |s.coarse| && s.Of(u) == g
    requires f in claimed ==> exists u :: In(s, done, u) && fine[u] == f
    ensures exists u :: In(s, done + {g}, u) && fine'[u] == f
  {
    if f in claimed {
      var u :| In(s, done, u) && fine[u] == f;
      assert In(s, done + {g}, u) && fine'[u] == f;
    } else {
      assert nodes[0] in nodes;
      assert In(s, done + {g}, nodes[0]) && fine'[nodes[0]] == id;
    }
  }

  /** The next part in order gets an id nobody has, its own whenever that is still free. */
  lemma LabelOne(s: Split, previous: seq<int>, fine: seq<int>, done: set<Group>, claimed: set<int>, first: int,
      next: int, g: Group, nodes: seq<int>, id: int, next': int, fine': seq<int>)
    requires Labelled(s, previous, fine, done, claimed, first, next)
    requires g !in done && (forall h :: h in done ==> Before(h, g)) && nodes != []
    requires forall u: int :: u in nodes <==> 0 <= u < |s.coarse| && s.Of(u) == g
    requires Taken(Held(previous, nodes), claimed, next, id, next')
    requires Above(previous, |s.coarse|, first)
    requires Relabelled(s, fine, g, id, fine')
    ensures Labelled(s, previous, fine', done + {g}, claimed + {id}, first, next')
  {
    hide Uniform, OwnOrFresh, Lost, Before, Taken, Relabelled, Above;
    RelabelledLength(s, fine, g, id, fine');
    TakenFacts(previous, nodes, claimed, next, id, next');
    IdBelow(s, previous, first, next, g, nodes, id, next');
    ApartOne(s, fine, done, claimed, g, id, fine');
    forall u | In(s, done + {g}, u) ensures OwnOrFresh(s, previous, fine', first, u) {
      Outside(s, done, g, u);
      OwnOne(s, previous, fine, done, first, g, nodes, id, fine', u);
    }
    forall f | f in claimed + {id} ensures f < next' && exists u :: In(s, done + {g}, u) && fine'[u] == f {
      ClaimedOne(s, fine, done, claimed, g, nodes, id, fine', f);
    }
    forall u | In(s, done + {g}, u) && Uniform(s, previous, u)
      ensures fine'[u] == Previous(previous, u) || Lost(s, fine', Previous(previous, u), u)
    {
      KeepOne(s, previous, fine, done, claimed, first, next, g, nodes, id, next', fine', u);
    }
  }

  lemma Outside(s: Split, done: set<Group>, g: Group, u: int)
    requires In(s, done + {g}, u)
    ensures 0 <= u < |s.coarse| && (s.Of(u) != g ==> In(s, done, u))
  {
  }

  lemma RelabelledLength(s: Split, fine: seq<int>, g: Group, id: int, fine': seq<int>)
    requires Relabelled(s, fine, g, id, fine')
    ensures |fine'| == |s.coarse|
  {
  }

  lemma IdBelow(s: Split, previous: seq<int>, first: int, next: int, g: Group, nodes: seq<int>, id: int, next': int)
    requires Above(previous, |s.coarse|, first) && first <= next <= next'
    requires forall u: int :: u in nodes ==> 0 <= u < |s.coarse|
    requires id == next < next' || exists w :: w in nodes && Previous(previous, w) == id
    ensures id < next' && (id >= first || exists w :: w in nodes && Previous(previous, w) == id)
  {
  }

  lemma KeepOne(s: Split, previous: seq<int>, fine: seq<int>, done: set<Group>, claimed: set<int>, first: int,
      next: int, g: Group, nodes: seq<int>, id: int, next': int, fine': seq<int>, u: int)
    requires Labelled(s, previous, fine, done, claimed, first, next)
    requires g !in done && (forall h :: h in done ==> Before(h, g))
    requires forall u: int :: u in nodes <==> 0 <= u < |s.coarse| && s.Of(u) == g
    requires Taken(Held(previous, nodes), claimed, next, id, next')
    requires Relabelled(s, fine, g, id, fine')
    requires In(s, done + {g}, u) && Uniform(s, previous, u)
    ensures fine'[u] == Previous(previous, u) || Lost(s, fine', Previous(previous, u), u)
  {
    var f := Previous(previous, u);
    if s.Of(u) != g {
      if Lost(s, fine, f, u) {
        var v :| 0 <= v < |s.coarse| && Before(s.Of(v), s.Of(u)) && fine[v] == f;
        assert Before(s.Of(u), g) && s.Of(v) != g && fine'[v] == f;
      }
    } else {
      HeldBy(previous, nodes, f);
      HeldBy(previous, nodes, id);
      if f in claimed {
        var v :| In(s, done, v) && fine[v] == f;
        assert Before(s.Of(v), g) && fine'[v] == f;
      } else {
        assert Wanted(Held(previous, nodes), claimed, f);
        var w :| w in nodes && Previous(previous, w) == id;
      }
    }
  }

  /** One part: its nodes, its id, and the label of each of them. */
  method LabelGroup(s: Split, previous: seq<int>, fine: array<int>, g: Group, claimed: set<int>, next: int,
      ghost done: set<Group>, ghost first: int) returns (claimed': set<int>, next': int)
    requires Labelled(s, previous, fine[..], done, claimed, first, next) && Above(previous, |s.coarse|, first)
    requires g !in done && (forall h :: h in done ==> Before(h, g)) && exists u :: 0 <= u < |s.coarse| && s.Of(u) == g
    modifies fine
    ensures Labelled(s, previous, fine[..], done + {g}, claimed', first, next') && |claimed'| == |claimed| + 1
  {
    hide *;
    ghost var before := fine[..];
    var nodes := Members(s, g);
    var id;
    id, next' := Take(Held(previous, nodes), claimed, next);
    LabelledLength(s, previous, before, done, claimed, first, next);
    Assign(fine, nodes, id);
    AssignedIs(s, before, g, nodes, id, fine[..]);
    claimed' := claimed + {id};
    LabelOne(s, previous, before, done, claimed, first, next, g, nodes, id, next', fine[..]);
    TakenIsNew(s, previous, before, done, claimed, first, next, Held(previous, nodes), id, next');
  }

  lemma AssignedIs(s: Split, fine: seq<int>, g: Group, nodes: seq<int>, id: int, fine': seq<int>)
    requires forall u: int :: u in nodes <==> 0 <= u < |s.coarse| && s.Of(u) == g
    requires |fine'| == |fine| == |s.coarse|
             && forall u :: 0 <= u < |fine| ==> fine'[u] == if u in nodes then id else fine[u]
    ensures Relabelled(s, fine, g, id, fine')
  {
  }

  /** `fine[group] = id`. */
  method Assign(fine: array<int>, nodes: seq<int>, id: int)
    requires forall u :: u in nodes ==> 0 <= u < fine.Length
    modifies fine
    ensures forall u :: 0 <= u < fine.Length ==> fine[u] == if u in nodes then id else old(fine[u])
  {
    for i := 0 to |nodes|
      invariant forall u :: 0 <= u < fine.Length ==> fine[u] == if u in nodes[..i] then id else old(fine[u])
    {
      assert nodes[i] in nodes && nodes[..i + 1] == nodes[..i] + [nodes[i]];
      fine[nodes[i]] := id;
    }
    assert nodes[..|nodes|] == nodes;
  }

  lemma LabelledLength(s: Split, previous: seq<int>, fine: seq<int>, done: set<Group>, claimed: set<int>, first: int,
      next: int)
    requires Labelled(s, previous, fine, done, claimed, first, next)
    ensures |fine| == |s.coarse| && first <= next
  {
  }

  lemma TakenIsNew(s: Split, previous: seq<int>, fine: seq<int>, done: set<Group>, claimed: set<int>, first: int,
      next: int, held: seq<int>, id: int, next': int)
    requires Labelled(s, previous, fine, done, claimed, first, next) && Taken(held, claimed, next, id, next')
    ensures id !in claimed
  {
  }

  /** The sub-labels that occur in a region, in order. */
  method SubLabels(s: Split, r: int) returns (subs: seq<int>)
    ensures forall x :: x in subs <==> exists u :: 0 <= u < |s.coarse| && s.Of(u) == (r, x)
    ensures forall i, j :: 0 <= i < j < |subs| ==> subs[i] < subs[j]
  {
    var all: seq<int> := [];
    for u := 0 to |s.coarse|
      invariant forall x :: x in all <==> exists v :: 0 <= v < u && s.Of(v) == (r, x)
    {
      if s.coarse[u] == r { all := all + [s.Of(u).1]; }
    }
    subs := Regions(all);
  }

  /** The parts of the regions before `r`, and those of `r` below the sub-labels still to come. */
  ghost predicate Progress(s: Split, done: set<Group>, regions: seq<int>, i: nat, subs: seq<int>, k: nat)
    requires i <= |regions| && k <= |subs|
  {
    && (forall h :: h in done ==> h.0 in regions[..i] || (i < |regions| && h.0 == regions[i] && h.1 in subs[..k]))
    && (forall u :: 0 <= u < |s.coarse| && s.coarse[u] in regions[..i] ==> s.Of(u) in done)
    && (forall x :: i < |regions| && x in subs[..k] ==> (regions[i], x) in done)
  }

  /**
   `fine_regions`: two nodes share a fine label exactly when they are in the same part; the count is the number
   of labels; and a part whose nodes all had one previous id keeps it exactly when no earlier part took it.
   */
  method FineLabels(s: Split, previous: seq<int>) returns (fine: array<int>, count: nat)
    ensures fresh(fine) && fine.Length == |s.coarse|
    ensures forall u, v :: 0 <= u < fine.Length && 0 <= v < fine.Length ==> (fine[u] == fine[v] <==> s.Of(u) == s.Of(v))
    ensures count == |set u | 0 <= u < fine.Length :: fine[u]|
    ensures forall u :: 0 <= u < fine.Length && Uniform(s, previous, u) ==>
              (fine[u] == Previous(previous, u) <==> !Lost(s, fine[..], Previous(previous, u), u))
    ensures exists first :: Above(previous, |s.coarse|, first)
              && forall u :: 0 <= u < fine.Length ==> OwnOrFresh(s, previous, fine[..], first, u)
  {
    hide *;
    fine := new int[|s.coarse|](_ => -1);
    var next := FirstFresh(previous, |s.coarse|);
    ghost var first := next;
    var claimed: set<int> := {};
    ghost var done: set<Group> := {};
    var regions := Regions(s.coarse);
    count := 0;
    NothingLabelled(s, previous, fine[..], first, regions);
    for i := 0 to |regions|
      invariant Labelled(s, previous, fine[..], done, claimed, first, next) && count == |claimed|
      invariant Progress(s, done, regions, i, [], 0)
    {
      var subs := SubLabels(s, regions[i]);
      FirstPart(s, done, regions, i, subs);
      for k := 0 to |subs|
        invariant Labelled(s, previous, fine[..], done, claimed, first, next) && count == |claimed|
        invariant Progress(s, done, regions, i, subs, k)
      {
        NextPart(s, done, regions, i, subs, k);
        assert subs[k] in subs;
        claimed, next := LabelGroup(s, previous, fine, (regions[i], subs[k]), claimed, next, done, first);
        done := done + {(regions[i], subs[k])};
        count := count + 1;
      }
      NextRegion(s, done, regions, i, subs);
    }
    LabelledAll(s, previous, fine[..], done, claimed, first, next, regions);
    ghost var labels := fine[..];
    assert forall u :: 0 <= u < fine.Length ==> fine[u] == labels[u];
    assert (set u | 0 <= u < fine.Length :: fine[u]) == set u | 0 <= u < |labels| :: labels[u];
  }

  lemma NothingLabelled(s: Split, previous: seq<int>, fine: seq<int>, first: int, regions: seq<int>)
    requires |fine| == |s.coarse|
    ensures Labelled(s, previous, fine, {}, {}, first, first) && Progress(s, {}, regions, 0, [], 0)
  {
  }

  lemma FirstPart(s: Split, done: set<Group>, regions: seq<int>, i: nat, subs: seq<int>)
    requires i < |regions| && Progress(s, done, regions, i, [], 0)
    ensures Progress(s, done, regions, i, subs, 0)
  {
  }

  lemma NextPart(s: Split, done: set<Group>, regions: seq<int>, i: nat, subs: seq<int>, k: nat)
    requires i < |regions| && k < |subs| && Progress(s, done, regions, i, subs, k)
    requires forall a, b :: 0 <= a < b < |regions| ==> regions[a] < regions[b]
    requires forall a, b :: 0 <= a < b < |subs| ==> subs[a] < subs[b]
    ensures var g := (regions[i], subs[k]);
            g !in done && (forall h :: h in done ==> Before(h, g)) && Progress(s, done + {g}, regions, i, subs, k + 1)
  {
    assert subs[..k + 1] == subs[..k] + [subs[k]];
  }

  lemma NextRegion(s: Split, done: set<Group>, regions: seq<int>, i: nat, subs: seq<int>)
    requires i < |regions| && Progress(s, done, regions, i, subs, |subs|)
    requires forall x :: x in subs <==> exists u :: 0 <= u < |s.coarse| && s.Of(u) == (regions[i], x)
    ensures Progress(s, done, regions, i + 1, [], 0)
  {
    assert regions[..i + 1] == regions[..i] + [regions[i]] && subs[..|subs|] == subs;
    forall u | 0 <= u < |s.coarse| && s.coarse[u] == regions[i] ensures s.Of(u) in done {
      assert s.Of(u) == (regions[i], s.Of(u).1);
    }
  }

  lemma LabelledAll(s: Split, previous: seq<int>, fine: seq<int>, done: set<Group>, claimed: set<int>, first: int,
      next: int, regions: seq<int>)
    requires Labelled(s, previous, fine, done, claimed, first, next) && Progress(s, done, regions, |regions|, [], 0)
    requires forall x :: x in s.coarse ==> x in regions
    ensures forall u, v :: 0 <= u < |fine| && 0 <= v < |fine| ==> (fine[u] == fine[v] <==> s.Of(u) == s.Of(v))
    ensures claimed == set u | 0 <= u < |fine| :: fine[u]
    ensures forall u :: 0 <= u < |fine| ==> OwnOrFresh(s, previous, fine, first, u)
    ensures forall u :: 0 <= u < |fine| && Uniform(s, previous, u) ==>
              (fine[u] == Previous(previous, u) <==> !Lost(s, fine, Previous(previous, u), u))
  {
    hide Uniform, OwnOrFresh;
    assert regions[..|regions|] == regions;
    forall u | 0 <= u < |fine| ensures In(s, done, u) {
      var r := s.coarse[u];
      assert r in s.coarse;
      assert r in regions;
      assert r in regions[..|regions|];
    }
    forall u | 0 <= u < |fine| && Uniform(s, previous, u) && Lost(s, fine, Previous(previous, u), u)
      ensures fine[u] != Previous(previous, u)
    {
      var v :| 0 <= v < |s.coarse| && Before(s.Of(v), s.Of(u)) && fine[v] == Previous(previous, u);
      assert In(s, done, u) && In(s, done, v);
    }
    forall f | f in claimed ensures exists u :: 0 <= u < |fine| && fine[u] == f {
      var u :| In(s, done, u) && fine[u] == f;
    }
  }

  /** A partition that did not change keeps every label. */
  lemma UnchangedKeepsLabels(s: Split, previous: seq<int>, fine: seq<int>, first: int)
    requires |fine| == |s.coarse| && Above(previous, |s.coarse|, first)
    requires forall u :: 0 <= u < |fine| ==> OwnOrFresh(s, previous, fine, first, u)
    requires forall u :: 0 <= u < |fine| && Uniform(s, previous, u) ==>
               (fine[u] == Previous(previous, u) <==> !Lost(s, fine, Previous(previous, u), u))
    requires forall u :: 0 <= u < |fine| ==> Previous(previous, u) >= 0
    requires forall u, v :: 0 <= u < |fine| && 0 <= v < |fine| ==>
               (Previous(previous, u) == Previous(previous, v) <==> s.Of(u) == s.Of(v))
    ensures forall u :: 0 <= u < |fine| ==> fine[u] == Previous(previous, u)
  {
    forall u | 0 <= u < |fine| ensures fine[u] == Previous(previous, u) {
      NotLost(s, previous, fine, first, u);
      assert Uniform(s, previous, u);
    }
  }

  lemma NotLost(s: Split, previous: seq<int>, fine: seq<int>, first: int, u: int)
    requires |fine| == |s.coarse| && Above(previous, |s.coarse|, first) && 0 <= u < |fine|
    requires forall u :: 0 <= u < |fine| ==> OwnOrFresh(s, previous, fine, first, u)
    requires forall v :: 0 <= v < |fine| ==> (Previous(previous, u) == Previous(previous, v) <==> s.Of(u) == s.Of(v))
    ensures !Lost(s, fine, Previous(previous, u), u)
  {
    assert Previous(previous, u) < first;
    forall v | 0 <= v < |fine| && Before(s.Of(v), s.Of(u)) ensures fine[v] != Previous(previous, u) {
      assert s.Of(v) != s.Of(u);
      if fine[v] < first {
        assert OwnOrFresh(s, previous, fine, first, v);
        var w :| 0 <= w < |s.coarse| && s.Of(w) == s.Of(v) && Previous(previous, w) == fine[v];
      }
    }
  }
}
