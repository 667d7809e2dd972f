/**
 What a promoted strength means: the kernel inputs that `vrs_refine.py` builds from the evidence, the consolidation
 that starts from the previous one, and what holds of every edge and node of every generation.
 */
module Promotion {
  import opened Consolidation
  import opened Evidence
  import opened RefineKernel
  import opened Wrappers

  const BASE_PENDING: real := 0.75
  const BASE_FLOOR: real := 0.05
  const USAGE_CAP: real := 0.2
  const USAGE_STEP: real := 0.05
  const USAGE_DIRECT: real := 0.1
  const PROMOTION: real := 1.0

  // ----- inputs -----

  /** What a generation is built on: the records, how often each was opened, and two functions of numbers. */
  datatype Basis = Basis(memory: Memory, opens: string -> nat, log2: real -> real, tanh: real -> real)

  /** Nodes in the graph of the records of a proposition, under its canonical name. */
  datatype Member = Member(pid: string, nodes: seq<nat>)

  /**
   A node is a record of the journal or a cue; an edge leads from a record to a cue; every node has a fine region.
   */
  datatype Graph = Graph(nodes: seq<Option<nat>>, forward: seq<(nat, nat)>, labels: seq<int>, members: seq<Member>)

  predicate IsRecord(g: Graph, v: nat) { v < |g.nodes| && g.nodes[v].Some? }

  ghost predicate GraphOk(b: Basis, g: Graph) {
    && Sane(b.memory) && |g.labels| == |g.nodes|
    && (forall v :: 0 <= v < |g.nodes| && g.nodes[v].Some? ==> g.nodes[v].value < |b.memory.records|)
    && (forall i :: 0 <= i < |g.forward| ==>
           IsRecord(g, g.forward[i].0) && g.forward[i].1 < |g.nodes| && !IsRecord(g, g.forward[i].1))
    && (forall k, j :: 0 <= k < |g.members| && 0 <= j < |g.members[k].nodes| ==> IsRecord(g, g.members[k].nodes[j]))
    && forall j, k :: 0 <= j < k < |g.members| ==> g.members[j].pid != g.members[k].pid
  }

  function RecordAt(b: Basis, g: Graph, v: nat): Record
    requires IsRecord(g, v) && g.nodes[v].value < |b.memory.records|
  {
    b.memory.records[g.nodes[v].value]
  }

  /** A pending record that was opened: an association from use. */
  predicate Used(b: Basis, r: Record) {
    RecordPolarity(r, b.memory.superseded) == 0 && r.id !in b.memory.superseded && b.opens(r.id) > 0
  }

  function Growth(b: Basis, r: Record): real { b.log2(1.0 + b.opens(r.id) as real) }

  /** The base that use alone earns. */
  function UsageBase(b: Basis, r: Record): real {
    if Used(b, r) then Min(USAGE_CAP, USAGE_STEP * (1.0 + Growth(b, r))) else 0.0
  }

  ghost function RecordDirect(b: Basis, r: Record): real {
    if Used(b, r) then b.tanh(USAGE_DIRECT * Growth(b, r)) else b.tanh(Weight(b.memory, r))
  }

  ghost predicate RecordUnresolved(b: Basis, r: Record) {
    !Used(b, r)
    && (RecordPolarity(r, b.memory.superseded) == 0
        || (IsEvidence(b.memory, r)
            && HypothesisUnresolved(b.memory.accumulator,
                 AllObservations(b.memory, Canonical(b.memory, r.proposition)))))
  }

  ghost function PropositionDirect(b: Basis, pid: string): real {
    var all := AllObservations(b.memory, pid);
    if all == [] then 0.0 else HypothesisDirect(b.memory.accumulator.counts(all), b.tanh)
  }

  ghost predicate PropositionUnresolved(b: Basis, pid: string) {
    var all := AllObservations(b.memory, pid);
    all != [] && HypothesisUnresolved(b.memory.accumulator, all)
  }

  /** A proposition's edges come after those of the propositions before it, and its node after theirs. */
  function PropositionEdges(members: seq<Member>, n: nat): seq<(nat, nat)> {
    if members == [] then []
    else
      var last := |members| - 1;
      PropositionEdges(members[..last], n) + MemberEdges(members[last].nodes, n + last)
  }

  function MemberEdges(nodes: seq<nat>, node: nat): (edges: seq<(nat, nat)>)
    ensures |edges| == |nodes|
  {
    seq(|nodes|, j requires 0 <= j < |nodes| => (nodes[j], node))
  }

  function EdgeList(g: Graph): seq<(nat, nat)> { g.forward + PropositionEdges(g.members, |g.nodes|) }

  lemma {:induction false} PropositionEdgesFit(members: seq<Member>, n: nat, i: nat)
    requires i < |PropositionEdges(members, n)|
    ensures var edge := PropositionEdges(members, n)[i];
            n <= edge.1 < n + |members| && edge.0 in members[edge.1 - n].nodes
  {
    var last := |members| - 1;
    var before := PropositionEdges(members[..last], n);
    if i < |before| {
      PropositionEdgesFit(members[..last], n, i);
    } else {
      assert PropositionEdges(members, n)[i] == MemberEdges(members[last].nodes, n + last)[i - |before|];
    }
  }

  /** Every edge leads from a record, to a cue or to a proposition. */
  lemma EdgesFit(b: Basis, g: Graph, i: nat)
    requires GraphOk(b, g) && i < |EdgeList(g)|
    ensures var edge := EdgeList(g)[i];
            && IsRecord(g, edge.0) && g.nodes[edge.0].value < |b.memory.records|
            && edge.1 < |g.nodes| + |g.members| && !IsRecord(g, edge.1)
            && (edge.1 < |g.nodes| <==> i < |g.forward|)
  {
    if i >= |g.forward| {
      PropositionEdgesFit(g.members, |g.nodes|, i - |g.forward|);
      var edge := EdgeList(g)[i];
      assert edge == PropositionEdges(g.members, |g.nodes|)[i - |g.forward|];
      var j :| 0 <= j < |g.members[edge.1 - |g.nodes|].nodes| && g.members[edge.1 - |g.nodes|].nodes[j] == edge.0;
    }
  }

  /** The base strength of a record's edge: its evidence, for an edge to a cue also its use, and a floor. */
  ghost function BaseOf(b: Basis, r: Record, toCue: bool): real {
    Max(if toCue then Max(Weight(b.memory, r), UsageBase(b, r)) else Weight(b.memory, r), BASE_FLOOR)
  }

  function SignOf(b: Basis, r: Record, toCue: bool): int {
    if toCue || RecordPolarity(r, b.memory.superseded) == 0 then 1 else RecordPolarity(r, b.memory.superseded)
  }

  ghost predicate IsNode(b: Basis, g: Graph, v: nat, direct: real, unresolved: bool, region: int)
    requires GraphOk(b, g) && v < |g.nodes| + |g.members|
  {
    if v < |g.nodes| then
      && region == g.labels[v]
      && if IsRecord(g, v)
         then direct == RecordDirect(b, RecordAt(b, g, v)) && unresolved == RecordUnresolved(b, RecordAt(b, g, v))
         else direct == 0.0 && !unresolved
    else
      var member := g.members[v - |g.nodes|];
      && direct == PropositionDirect(b, member.pid) && unresolved == PropositionUnresolved(b, member.pid)
      && region == if member.nodes == [] then 0 else LabelOf(g, member.nodes[0])
  }

  function LabelOf(g: Graph, v: nat): int { if v < |g.labels| then g.labels[v] else 0 }

  ghost predicate IsEdge(b: Basis, g: Graph, i: nat, src: nat, dst: nat, sign: int, base: real) {
    && i < |EdgeList(g)| && src == EdgeList(g)[i].0 && dst == EdgeList(g)[i].1 && IsRecord(g, src)
    && g.nodes[src].value < |b.memory.records|
    && sign == SignOf(b, RecordAt(b, g, src), i < |g.forward|)
       && base == BaseOf(b, RecordAt(b, g, src), i < |g.forward|)
  }

  /** These are the inputs of the graph's nodes and edges. */
  ghost predicate Built(b: Basis, g: Graph, inp: Inputs) {
    && GraphOk(b, g) && inp.Valid() && |inp.direct| == |g.nodes| + |g.members| && |inp.src| == |EdgeList(g)|
    && (forall v :: 0 <= v < |inp.direct| ==> IsNode(b, g, v, inp.direct[v], inp.unresolved[v], inp.labels[v]))
    && forall i :: 0 <= i < |inp.src| ==> IsEdge(b, g, i, inp.src[i], inp.dst[i], inp.sign[i], inp.base[i])
  }

  method BuildNodes(b: Basis, g: Graph, v: View) returns (direct: seq<real>, unresolved: seq<bool>, labels: seq<int>)
    requires GraphOk(b, g) && (forall i :: 0 <= i < |b.memory.records| ==> Known(b.memory, b.memory.records[i], v))
    requires forall h :: Gathers(v.hypotheses, h, AllObservations(b.memory, h))
    ensures |direct| == |unresolved| == |labels| == |g.nodes| + |g.members|
    ensures forall n :: 0 <= n < |direct| ==> IsNode(b, g, n, direct[n], unresolved[n], labels[n])
  {
    hide Weight, Growth, HypothesisDirect, HypothesisUnresolved, Observations, RecordPolarity, Sane, Canonical;
    direct, unresolved, labels := [], [], [];
    for n := 0 to |g.nodes|
      invariant |direct| == |unresolved| == |labels| == n
      invariant forall k :: 0 <= k < n ==> IsNode(b, g, k, direct[k], unresolved[k], labels[k])
    {
      labels := labels + [g.labels[n]];
      match g.nodes[n]
      case None => direct, unresolved := direct + [0.0], unresolved + [false];
      case Some(i) =>
        var r := b.memory.records[i];
        assert Known(b.memory, r, v);
        PendingHasNoWeight(b.memory, r);
        var pol := Get(v.polarity, r.id, 0);
        if Used(b, r) {
          direct, unresolved := direct + [b.tanh(USAGE_DIRECT * Growth(b, r))], unresolved + [false];
        } else {
          var contested := r.id in v.primary && v.primary[r.id] in v.hypotheses
                           && HypothesisUnresolved(b.memory.accumulator, v.hypotheses[v.primary[r.id]]);
          if r.id in v.primary { ObservedHere(b.memory, r, i, v); }
          direct := direct + [b.tanh(if pol != 0 then Get(v.weight, r.id, 0.0) else 0.0)];
          unresolved := unresolved + [pol == 0 || contested];
        }
    }
    for k := 0 to |g.members|
      invariant |direct| == |unresolved| == |labels| == |g.nodes| + k
      invariant forall n :: 0 <= n < |g.nodes| + k ==> IsNode(b, g, n, direct[n], unresolved[n], labels[n])
    {
      var member := g.members[k];
      assert Gathers(v.hypotheses, member.pid, AllObservations(b.memory, member.pid));
      labels := labels + [if member.nodes == [] then 0 else LabelOf(g, member.nodes[0])];
      if member.pid in v.hypotheses {
        var all := v.hypotheses[member.pid];
        direct := direct + [HypothesisDirect(b.memory.accumulator.counts(all), b.tanh)];
        unresolved := unresolved + [HypothesisUnresolved(b.memory.accumulator, all)];
      } else {
        direct, unresolved := direct + [0.0], unresolved + [false];
      }
    }
  }

  lemma ObservedHere(m: Memory, r: Record, i: nat, v: View)
    requires i < |m.records| && m.records[i] == r && IsEvidence(m, r) && Known(m, r, v)
    requires Gathers(v.hypotheses, Canonical(m, r.proposition), AllObservations(m, Canonical(m, r.proposition)))
    ensures v.primary[r.id] in v.hypotheses
            && v.hypotheses[v.primary[r.id]] == AllObservations(m, Canonical(m, r.proposition))
  {
    SomethingObserved(m, Canonical(m, r.proposition), |m.records|, i);
  }

  /** The edges of the propositions, proposition by proposition. */
  method ListEdges(g: Graph) returns (edges: seq<(nat, nat)>)
    ensures edges == EdgeList(g)
  {
    edges := g.forward;
    for k := 0 to |g.members|
      invariant edges == g.forward + PropositionEdges(g.members[..k], |g.nodes|)
    {
      var nodes := g.members[k].nodes;
      ghost var before := edges;
      for j := 0 to |nodes|
        invariant edges == before + MemberEdges(nodes, |g.nodes| + k)[..j]
      {
        edges := edges + [(nodes[j], |g.nodes| + k)];
      }
      assert g.members[..k + 1][..k] == g.members[..k];
      assert MemberEdges(nodes, |g.nodes| + k)[..|nodes|] == MemberEdges(nodes, |g.nodes| + k);
    }
    assert g.members[..|g.members|] == g.members;
  }

  /** `build_inputs`. */
  method BuildInputs(b: Basis, g: Graph) returns (inp: Inputs)
    requires GraphOk(b, g)
    ensures Built(b, g, inp)
  {
    hide Weight, UsageBase, Sane, IsNode, Observations, RecordPolarity;
    var v := Build(b.memory);
    var direct, unresolved, labels := BuildNodes(b, g, v);
    var edges := ListEdges(g);
    var src: seq<nat>, dst: seq<nat>, sign: seq<int>, base: seq<real> := [], [], [], [];
    for i := 0 to |edges|
      invariant |src| == |dst| == |sign| == |base| == i
      invariant forall k :: 0 <= k < i ==>
                  src[k] < |direct| && dst[k] < |direct| && IsEdge(b, g, k, src[k], dst[k], sign[k], base[k])
    {
      EdgesFit(b, g, i);
      var r := RecordAt(b, g, edges[i].0);
      assert Known(b.memory, r, v);
      PendingHasNoWeight(b.memory, r);
      var pol := Get(v.polarity, r.id, 0);
      var w := if pol != 0 then Get(v.weight, r.id, 0.0) else 0.0;
      src, dst := src + [edges[i].0], dst + [edges[i].1];
      sign := sign + [if i < |g.forward| || pol == 0 then 1 else pol];
      base := base + [Max(if i < |g.forward| then Max(w, UsageBase(b, r)) else w, BASE_FLOOR)];
    }
    inp := Inputs(direct, unresolved, labels, src, dst, sign, base);
  }

  lemma BasesArePositive(b: Basis, g: Graph, inp: Inputs)
    requires Built(b, g, inp)
    ensures forall i :: 0 <= i < |inp.base| ==> inp.base[i] >= BASE_FLOOR
  {
    hide Weight, UsageBase;
    forall i | 0 <= i < |inp.base| ensures inp.base[i] >= BASE_FLOOR {
      assert IsEdge(b, g, i, inp.src[i], inp.dst[i], inp.sign[i], inp.base[i]);
    }
  }

  lemma UsageIsCapped(b: Basis, r: Record)
    ensures UsageBase(b, r) <= USAGE_CAP
  {
  }

  // ----- the previous consolidation -----

  /** What a consolidation keeps of a proposition. */
  datatype Kept = Kept(state: real, direct: real, unresolved: bool)

  /**
   A stable version: its nodes and forward edges, their states and inputs (older ones lack the inputs), its
   propositions, the strengths of its proposition edges, and the last move of every region and connector.
   */
  datatype Version = Version(state: seq<real>, known: Option<(seq<real>, seq<bool>)>, edges: nat,
      propositions: map<string, Kept>, propositionStrength: map<(nat, string), real>, delta: map<Key, real>)

  ghost predicate VersionOk(p: Version) { p.known.Some? ==> |p.known.value.0| == |p.known.value.1| == |p.state| }

  /** Warm start of a node's state. A record is only a source, so its state is its direct, anew every time. */
  function StartState(previous: Option<Version>, g: Graph, inp: Inputs, v: nat): real
    requires v < |inp.direct| == |g.nodes| + |g.members|
  {
    match previous
    case None => inp.direct[v]
    case Some(p) =>
      if v >= |g.nodes| then
        var pid := g.members[v - |g.nodes|].pid;
        if pid in p.propositions then p.propositions[pid].state else inp.direct[v]
      else if v < |p.state| && !IsRecord(g, v) then p.state[v]
      else inp.direct[v]
  }

  /** The proposition edge of an edge beyond the forward ones. */
  function EdgeName(g: Graph, inp: Inputs, i: nat): (nat, string)
    requires i < |inp.src| == |inp.dst|
  {
    (inp.src[i],
      if |g.nodes| <= inp.dst[i] < |g.nodes| + |g.members| then g.members[inp.dst[i] - |g.nodes|].pid else "")
  }

  /** Strength an edge carries over, its base if it is new. */
  function Carried(previous: Option<Version>, flat: seq<real>, g: Graph, inp: Inputs, i: nat): real
    requires i < |inp.src| == |inp.dst| == |inp.base|
  {
    match previous
    case None => inp.base[i]
    case Some(p) =>
      if i < |g.forward| then (if i < p.edges && i < |flat| then flat[i] else inp.base[i])
      else if EdgeName(g, inp, i) in p.propositionStrength then p.propositionStrength[EdgeName(g, inp, i)]
      else inp.base[i]
  }

  /** A node whose inputs are not what they were. */
  predicate Changed(p: Version, g: Graph, inp: Inputs, v: nat)
    requires v < |inp.direct| == |inp.unresolved| == |g.nodes| + |g.members|
  {
    match p.known
    case None => true
    case Some((direct, unresolved)) =>
      if v >= |g.nodes| then
        var pid := g.members[v - |g.nodes|].pid;
        pid !in p.propositions || inp.direct[v] != p.propositions[pid].direct
          || inp.unresolved[v] != p.propositions[pid].unresolved
      else v >= |direct| || v >= |unresolved| || inp.direct[v] != direct[v] || inp.unresolved[v] != unresolved[v]
  }

  /** A new edge, or one at a node that changed. */
  predicate IsFresh(previous: Option<Version>, g: Graph, inp: Inputs, i: nat)
    requires inp.Valid() && |inp.direct| == |g.nodes| + |g.members| && i < |inp.src|
  {
    match previous
    case None => true
    case Some(p) =>
      || (if i < |g.forward| then i >= p.edges else EdgeName(g, inp, i) !in p.propositionStrength)
      || Changed(p, g, inp, inp.src[i]) || Changed(p, g, inp, inp.dst[i])
  }

  ghost predicate Starts(previous: Option<Version>, flat: seq<real>, g: Graph, c: Setting, start: World)
    requires c.inp.Valid() && |c.inp.direct| == |g.nodes| + |g.members|
  {
    && Fits(c.inp, start) && |c.touched| == |c.inp.src| && start.delta == map[]
    && c.previous == (if previous.Some? then previous.value.delta else map[])
    && (forall v :: 0 <= v < |start.state| ==> start.state[v] == StartState(previous, g, c.inp, v))
    && (forall i :: 0 <= i < |start.strength| ==>
          start.strength[i] == Clamp(Carried(previous, flat, g, c.inp, i), c.inp.base[i])
          && c.touched[i] == IsFresh(previous, g, c.inp, i))
  }

  /** The warm start of `consolidate`. */
  method WarmStart(previous: Option<Version>, flat: seq<real>, g: Graph, inp: Inputs, plans: Plans)
    returns (c: Setting, start: World)
    requires inp.Valid() && |inp.direct| == |g.nodes| + |g.members| && Runnable(plans)
    requires forall i :: 0 <= i < |inp.base| ==> inp.base[i] >= 0.0
    ensures c.inp == inp && c.plans == plans && Ok(c) && Starts(previous, flat, g, c, start)
            && InClamp(start.strength, inp.base)
  {
    hide Clamp, Carried, Changed;
    var state: seq<real>, strength: seq<real>, touched: seq<bool> := [], [], [];
    for v := 0 to |inp.direct|
      invariant |state| == v && forall k :: 0 <= k < v ==> state[k] == StartState(previous, g, inp, k)
    {
      state := state + [StartState(previous, g, inp, v)];
    }
    for i := 0 to |inp.src|
      invariant |strength| == |touched| == i
      invariant forall k :: 0 <= k < i ==> inp.base[k] * 0.25 <= strength[k] <= inp.base[k] * 4.0
      invariant forall k :: 0 <= k < i ==>
                  strength[k] == Clamp(Carried(previous, flat, g, inp, k), inp.base[k])
                    && touched[k] == IsFresh(previous, g, inp, k)
    {
      ClampInside(Carried(previous, flat, g, inp, i), inp.base[i]);
      strength := strength + [Clamp(Carried(previous, flat, g, inp, i), inp.base[i])];
      touched := touched + [IsFresh(previous, g, inp, i)];
    }
    c := Setting(inp, plans, touched, if previous.Some? then previous.value.delta else map[]);
    start := World(strength, state, map[]);
  }

  // ----- one consolidation -----

  /** `np.unique(labels)`. */
  function Regions(labels: seq<int>): (regions: seq<int>)
    ensures forall x :: x in regions <==> x in labels
    ensures forall i, j :: 0 <= i < j < |regions| ==> regions[i] < regions[j]
  {
    if labels == [] then [] else InsertRegion(Regions(labels[..|labels| - 1]), labels[|labels| - 1])
  }

  function InsertRegion(regions: seq<int>, r: int): (more: seq<int>)
    requires forall i, j :: 0 <= i < j < |regions| ==> regions[i] < regions[j]
    ensures forall x :: x in more <==> x in regions || x == r
    ensures forall i, j :: 0 <= i < j < |more| ==> more[i] < more[j]
  {
    if regions == [] || r < regions[0] then [r] + regions
    else if r == regions[0] then regions
    else
      var rest := InsertRegion(regions[1..], r);
      assert forall i :: 0 <= i < |rest| ==> rest[i] in rest;
      [regions[0]] + rest
  }

  function Keys(regions: seq<int>, connector: bool): seq<Key> {
    seq(|regions|, i requires 0 <= i < |regions| => Key(regions[i], connector))
  }

  /** A commit leaves every strength inside its clamp. */
  lemma CommitInClamp(c: Setting, w: World, frozen: World, key: Key)
    requires Ok(c) && Fits(c.inp, w) && Fits(c.inp, frozen) && InClamp(w.strength, c.inp.base)
    requires forall i :: 0 <= i < |c.inp.base| ==> c.inp.base[i] >= 0.0
    ensures InClamp(Commit(c, w, key, Compute(c, frozen, key)).strength, c.inp.base)
  {
    hide Refinement, EdgesOf, NodesOf, Delta;
    var r := Compute(c, frozen, key);
    if r.Result? {
      var edges := Edges(c, key);
      var sub := SubOf(c.inp, key);
      RefinedInClamp(sub, c.plans(key), Pick(frozen.state, Nodes(c, key)), Pick(frozen.strength, edges));
      var after := Commit(c, w, key, r).strength;
      forall i | 0 <= i < |after| ensures c.inp.base[i] * 0.25 <= after[i] <= c.inp.base[i] * 4.0 {
        var at := Position(edges, i);
        if at < |edges| { assert sub.base[at] == c.inp.base[i] && after[i] == r.refined.strength[at]; }
      }
    }
  }

  lemma {:induction false} PhaseInClamp(c: Setting, w: World, keys: seq<Key>)
    requires Ok(c) && Fits(c.inp, w) && InClamp(w.strength, c.inp.base)
    requires forall i :: 0 <= i < |c.inp.base| ==> c.inp.base[i] >= 0.0
    ensures InClamp(Together(c, w, keys).strength, c.inp.base)
  {
    hide Commit, Compute, InClamp;
    if keys != [] {
      PhaseInClamp(c, w, keys[..|keys| - 1]);
      CommitInClamp(c, Together(c, w, keys[..|keys| - 1]), w, keys[|keys| - 1]);
    }
  }

  /** Both phases over all regions, in region order. */
  function Consolidated(c: Setting, start: World): World
    requires Ok(c) && Fits(c.inp, start)
  {
    var regions := Regions(c.inp.labels);
    Together(c, Together(c, start, Keys(regions, false)), Keys(regions, true))
  }

  lemma KeysArePhase(regions: seq<int>, connector: bool)
    requires forall i, j :: 0 <= i < j < |regions| ==> regions[i] < regions[j]
    ensures Distinct(Keys(regions, connector)) && SamePhase(Keys(regions, connector))
    ensures forall k: Key :: k in KeySet(Keys(regions, connector)) <==> k.region in regions && k.connector == connector
  {
    forall k: Key | k.region in regions && k.connector == connector ensures k in KeySet(Keys(regions, connector)) {
      var i :| 0 <= i < |regions| && regions[i] == k.region;
      assert Keys(regions, connector)[i] == k;
    }
  }

  /** The serial loop, over the regions in any order, ends where the two parallel phases end. */
  lemma ConsolidationIsSerial(c: Setting, start: World, normal: seq<Key>, connectors: seq<Key>)
    requires Ok(c) && Fits(c.inp, start) && Distinct(normal) && Distinct(connectors)
    requires forall k: Key :: k in normal <==> k.region in c.inp.labels && !k.connector
    requires forall k: Key :: k in connectors <==> k.region in c.inp.labels && k.connector
    ensures OneByOne(c, OneByOne(c, start, normal), connectors) == Consolidated(c, start)
  {
    hide Together, OneByOne, Ok, Fits;
    var regions := Regions(c.inp.labels);
    KeysArePhase(regions, false);
    KeysArePhase(regions, true);
    assert KeySet(normal) == KeySet(Keys(regions, false)) && KeySet(connectors) == KeySet(Keys(regions, true));
    PhaseIsSerial(c, start, Keys(regions, false), normal);
    PhaseIsSerial(c, Together(c, start, Keys(regions, false)), Keys(regions, true), connectors);
  }

  // ----- what the phases keep of the states -----

  /** No edge leads to this node. */
  ghost predicate IsSource(inp: Inputs, v: nat) { v !in inp.dst }

  lemma LocalSource(c: Setting, key: Key, k: nat)
    requires c.inp.Valid() && k < |Nodes(c, key)| && IsSource(c.inp, Nodes(c, key)[k])
    ensures k !in SubOf(c.inp, key).dst
  {
    var edges, nodes := Edges(c, key), Nodes(c, key);
    var sub := SubOf(c.inp, key);
    SubIsValid(c.inp, edges, nodes);
    forall j | 0 <= j < |sub.dst| ensures sub.dst[j] != k {
      assert sub.dst[j] == Position(nodes, c.inp.dst[edges[j]]);
    }
  }

  lemma SubSizes(c: Setting, key: Key)
    requires c.inp.Valid()
    ensures var sub := SubOf(c.inp, key);
            |sub.direct| == |Nodes(c, key)| && |sub.src| == |Edges(c, key)|
  {
    hide EdgesOf, NodesOf;
  }

  lemma CommitKeepsSource(c: Setting, w: World, frozen: World, key: Key, v: nat)
    requires Ok(c) && Fits(c.inp, w) && Fits(c.inp, frozen) && v < |c.inp.direct| && IsSource(c.inp, v)
    requires frozen.state[v] == w.state[v]
    ensures Commit(c, w, key, Compute(c, frozen, key)).state[v] == w.state[v]
  {
    hide Refinement, EdgesOf, NodesOf, Delta, SubOf, IsSource;
    var r := Compute(c, frozen, key);
    if r.Result? && !key.connector {
      var at := Position(Nodes(c, key), v);
      if at < |Nodes(c, key)| {
        LocalSource(c, key, at);
        SubSizes(c, key);
        SourceKeepsState(SubOf(c.inp, key), c.plans(key), Pick(frozen.state, Nodes(c, key)),
          Pick(frozen.strength, Edges(c, key)), at);
      }
    }
  }

  /** A node no edge leads to keeps its state through a phase. */
  lemma {:induction false} PhaseKeepsSource(c: Setting, w: World, keys: seq<Key>, v: nat)
    requires Ok(c) && Fits(c.inp, w) && v < |c.inp.direct| && IsSource(c.inp, v)
    ensures Together(c, w, keys).state[v] == w.state[v]
  {
    hide Commit, Compute, IsSource;
    if keys != [] {
      PhaseKeepsSource(c, w, keys[..|keys| - 1], v);
      CommitKeepsSource(c, Together(c, w, keys[..|keys| - 1]), w, keys[|keys| - 1], v);
    }
  }

  ghost predicate AllSquash(plans: Plans) { forall key :: Squashes(plans(key).tanh) }

  lemma CommitInUnit(c: Setting, w: World, frozen: World, key: Key)
    requires Ok(c) && Fits(c.inp, w) && Fits(c.inp, frozen) && InUnit(w.state) && InUnit(frozen.state)
             && AllSquash(c.plans)
    ensures InUnit(Commit(c, w, key, Compute(c, frozen, key)).state)
  {
    hide Refinement, EdgesOf, NodesOf, Delta, SubOf, Squashes;
    var r := Compute(c, frozen, key);
    if r.Result? {
      SubSizes(c, key);
      StatesInUnit(SubOf(c.inp, key), c.plans(key), Pick(frozen.state, Nodes(c, key)),
        Pick(frozen.strength, Edges(c, key)));
    }
  }

  lemma {:induction false} PhaseInUnit(c: Setting, w: World, keys: seq<Key>)
    requires Ok(c) && Fits(c.inp, w) && InUnit(w.state) && AllSquash(c.plans)
    ensures InUnit(Together(c, w, keys).state)
  {
    hide Commit, Compute, InUnit, AllSquash;
    if keys != [] {
      PhaseInUnit(c, w, keys[..|keys| - 1]);
      CommitInUnit(c, Together(c, w, keys[..|keys| - 1]), w, keys[|keys| - 1]);
    }
  }

  // ----- what every generation has -----

  /**
   An edge at or above the promotion threshold belongs to a live, resolved record with a declared proposition, a
   signature that held and a weight of at least a quarter; without evidence an edge stays below four usage caps.
   */
  ghost predicate Evidenced(m: Memory, r: Record, strength: real) {
    && (strength >= PROMOTION ==> Weight(m, r) >= 0.25 && IsEvidence(m, r) && r.id !in m.superseded)
    && (!IsEvidence(m, r) ==> strength <= 4.0 * USAGE_CAP < PROMOTION)
  }

  ghost predicate AllEvidenced(b: Basis, g: Graph, strength: seq<real>) {
    && |strength| == |EdgeList(g)|
    && forall i :: 0 <= i < |strength| ==>
         IsRecord(g, EdgeList(g)[i].0) && g.nodes[EdgeList(g)[i].0].value < |b.memory.records|
         && Evidenced(b.memory, RecordAt(b, g, EdgeList(g)[i].0), strength[i])
  }

  /** Inside the clamp of its base a strength says what the record's evidence allows. */
  lemma ClampIsEvidence(b: Basis, r: Record, toCue: bool, strength: real)
    requires Sane(b.memory) && strength <= 4.0 * BaseOf(b, r, toCue)
    ensures Evidenced(b.memory, r, strength)
  {
    hide UsageBase, ProposalWeight, Observations;
    WeightIsEvidence(b.memory, r);
    UsageIsCapped(b, r);
  }

  lemma StrengthsAreEvidenced(b: Basis, g: Graph, inp: Inputs, strength: seq<real>)
    requires Built(b, g, inp) && InClamp(strength, inp.base)
    ensures AllEvidenced(b, g, strength)
  {
    hide BaseOf, Evidenced, SignOf, Sane, EdgeList, IsNode;
    forall i | 0 <= i < |strength|
      ensures IsRecord(g, EdgeList(g)[i].0) && g.nodes[EdgeList(g)[i].0].value < |b.memory.records|
      ensures Evidenced(b.memory, RecordAt(b, g, EdgeList(g)[i].0), strength[i])
    {
      assert IsEdge(b, g, i, inp.src[i], inp.dst[i], inp.sign[i], inp.base[i]);
      ClampIsEvidence(b, RecordAt(b, g, inp.src[i]), i < |g.forward|, strength[i]);
    }
  }

  /** Every record's state is its direct as it is now. */
  ghost predicate RecordsCurrent(b: Basis, g: Graph, state: seq<real>) {
    |state| == |g.nodes|
    && forall v :: 0 <= v < |state| && IsRecord(g, v) ==>
         g.nodes[v].value < |b.memory.records| && state[v] == RecordDirect(b, RecordAt(b, g, v))
  }

  lemma RecordsAreSources(b: Basis, g: Graph, inp: Inputs, v: nat)
    requires Built(b, g, inp) && IsRecord(g, v)
    ensures IsSource(inp, v)
  {
    hide BaseOf, SignOf, Sane, EdgeList, IsNode;
    if v in inp.dst {
      var i :| 0 <= i < |inp.dst| && inp.dst[i] == v;
      assert IsEdge(b, g, i, inp.src[i], inp.dst[i], inp.sign[i], inp.base[i]);
      EdgesFit(b, g, i);
    }
  }

  lemma RecordsStayCurrent(b: Basis, g: Graph, previous: Option<Version>, flat: seq<real>, c: Setting, start: World)
    requires Ok(c) && Built(b, g, c.inp) && Starts(previous, flat, g, c, start)
    ensures RecordsCurrent(b, g, Consolidated(c, start).state[..|g.nodes|])
  {
    hide BaseOf, SignOf, Sane, EdgeList, RecordDirect, Together, IsEdge, Carried, IsFresh;
    var regions := Regions(c.inp.labels);
    var settled := Together(c, start, Keys(regions, false));
    forall v | 0 <= v < |g.nodes| && IsRecord(g, v)
      ensures g.nodes[v].value < |b.memory.records|
              && Consolidated(c, start).state[v] == RecordDirect(b, RecordAt(b, g, v))
    {
      RecordsAreSources(b, g, c.inp, v);
      PhaseKeepsSource(c, start, Keys(regions, false), v);
      PhaseKeepsSource(c, settled, Keys(regions, true), v);
      assert IsNode(b, g, v, c.inp.direct[v], c.inp.unresolved[v], c.inp.labels[v]);
    }
  }

  ghost predicate VersionInUnit(p: Version) {
    InUnit(p.state) && forall pid :: pid in p.propositions ==> -1.0 <= p.propositions[pid].state <= 1.0
  }

  lemma InputsInUnit(b: Basis, g: Graph, inp: Inputs)
    requires Built(b, g, inp) && Squashes(b.tanh)
    ensures InUnit(inp.direct)
  {
    hide Weight, Growth, Observations, IsEdge, EdgeList, Sane, HypothesisUnresolved, RecordUnresolved;
    forall v | 0 <= v < |inp.direct| ensures -1.0 <= inp.direct[v] <= 1.0 {
      assert IsNode(b, g, v, inp.direct[v], inp.unresolved[v], inp.labels[v]);
    }
  }

  lemma StatesStayInUnit(b: Basis, g: Graph, previous: Option<Version>, flat: seq<real>, c: Setting, start: World)
    requires Ok(c) && Built(b, g, c.inp) && Starts(previous, flat, g, c, start)
    requires Squashes(b.tanh) && AllSquash(c.plans) && (previous.Some? ==> VersionInUnit(previous.value))
    ensures InUnit(Consolidated(c, start).state)
  {
    InputsInUnit(b, g, c.inp);
    hide Built, Together, Squashes, AllSquash, Carried, IsFresh;
    assert InUnit(start.state);
    var regions := Regions(c.inp.labels);
    PhaseInUnit(c, start, Keys(regions, false));
    PhaseInUnit(c, Together(c, start, Keys(regions, false)), Keys(regions, true));
  }

  /** A dictionary filled in order: the last value under a key stays. */
  function Filled<K, V>(keys: seq<K>, values: seq<V>): map<K, V>
    requires |keys| == |values|
  {
    if keys == [] then map[]
    else Filled(keys[..|keys| - 1], values[..|keys| - 1])[keys[|keys| - 1] := values[|keys| - 1]]
  }

  ghost predicate IsLast<K>(keys: seq<K>, i: nat)
    requires i < |keys|
  {
    forall j :: i < j < |keys| ==> keys[j] != keys[i]
  }

  lemma {:induction false} FilledKeys<K, V>(keys: seq<K>, values: seq<V>, k: K)
    requires |keys| == |values|
    ensures k in Filled(keys, values) <==> k in keys
  {
    if keys != [] {
      var n := |keys| - 1;
      FilledKeys(keys[..n], values[..n], k);
      assert keys == keys[..n] + [keys[n]];
    }
  }

  lemma {:induction false} FilledLast<K, V>(keys: seq<K>, values: seq<V>, i: nat)
    requires |keys| == |values| && i < |keys| && IsLast(keys, i)
    ensures keys[i] in Filled(keys, values) && Filled(keys, values)[keys[i]] == values[i]
  {
    var n := |keys| - 1;
    if i < n {
      FilledLast(keys[..n], values[..n], i);
      assert keys[n] != keys[i];
    }
  }

  method Fill<K(==), V>(keys: seq<K>, values: seq<V>) returns (m: map<K, V>)
    requires |keys| == |values|
    ensures m == Filled(keys, values)
  {
    m := map[];
    for i := 0 to |keys|
      invariant m == Filled(keys[..i], values[..i])
    {
      assert keys[..i + 1][..i] == keys[..i] && values[..i + 1][..i] == values[..i];
      m := m[keys[i] := values[i]];
    }
    assert keys[..|keys|] == keys && values[..|keys|] == values;
  }

  function Pids(g: Graph): seq<string> { seq(|g.members|, k requires 0 <= k < |g.members| => g.members[k].pid) }

  function KeptOf(g: Graph, inp: Inputs, w: World): (r: seq<Kept>)
    requires |w.state| == |inp.direct| == |inp.unresolved| == |g.nodes| + |g.members|
    ensures |r| == |g.members|
  {
    var n := |g.nodes|;
    seq(|g.members|, k requires 0 <= k < |g.members| => Kept(w.state[n + k], inp.direct[n + k], inp.unresolved[n + k]))
  }

  /** The proposition edges' names and strengths. */
  function EdgeNames(g: Graph, inp: Inputs): (r: seq<(nat, string)>)
    requires |g.forward| <= |inp.src| == |inp.dst|
    ensures |r| == |inp.src| - |g.forward|
  {
    seq(|inp.src| - |g.forward|, k requires 0 <= k < |inp.src| - |g.forward| => EdgeName(g, inp, |g.forward| + k))
  }

  /** What a consolidation leaves: the strengths of all edges, and the version the next one starts from. */
  datatype Outcome = Outcome(strength: seq<real>, version: Version)

  /** What holds after a consolidation, whatever came before it. */
  ghost predicate Holds(b: Basis, g: Graph, o: Outcome) {
    AllEvidenced(b, g, o.strength) && RecordsCurrent(b, g, o.version.state) && VersionOk(o.version)
  }

  /** `consolidate`: the inputs of now, the warm start, normal regions, then connectors against the settled regions. */
  method Consolidate(b: Basis, g: Graph, previous: Option<Version>, flat: seq<real>, plans: Plans) returns (o: Outcome)
    requires GraphOk(b, g) && Runnable(plans)
    ensures Holds(b, g, o) && o.version.edges == |g.forward|
    ensures Squashes(b.tanh) && AllSquash(plans) && (previous.Some? ==> VersionInUnit(previous.value)) ==>
              VersionInUnit(o.version)
    ensures exists c, start ::
              && Ok(c) && Built(b, g, c.inp) && c.plans == plans && Starts(previous, flat, g, c, start)
              && o.strength == Consolidated(c, start).strength && o.version.delta == Consolidated(c, start).delta
              && o.version.state == Consolidated(c, start).state[..|g.nodes|]
  {
    hide Together, InClamp, Built, Starts, GraphOk, AllEvidenced, RecordsCurrent, Squashes, AllSquash;
    var inp := BuildInputs(b, g);
    BasesArePositive(b, g, inp);
    BuiltSizes(b, g, inp);
    var c, start := WarmStart(previous, flat, g, inp, plans);
    StartFits(previous, flat, g, c, start);
    var regions := Regions(inp.labels);
    var settled := RunPhase(c, start, Keys(regions, false));
    PhaseInClamp(c, start, Keys(regions, false));
    var w := RunPhase(c, settled, Keys(regions, true));
    PhaseInClamp(c, settled, Keys(regions, true));
    StrengthsAreEvidenced(b, g, inp, w.strength);
    RecordsStayCurrent(b, g, previous, flat, c, start);
    NamesDiffer(b, g);
    o := Publish(g, inp, w);
    if Squashes(b.tanh) && AllSquash(plans) && (previous.Some? ==> VersionInUnit(previous.value)) {
      StatesStayInUnit(b, g, previous, flat, c, start);
    }
  }

  lemma NamesDiffer(b: Basis, g: Graph)
    requires GraphOk(b, g)
    ensures forall j, k :: 0 <= j < k < |g.members| ==> g.members[j].pid != g.members[k].pid
  {
  }

  lemma BuiltSizes(b: Basis, g: Graph, inp: Inputs)
    requires Built(b, g, inp)
    ensures inp.Valid() && |inp.direct| == |g.nodes| + |g.members| && |inp.src| == |EdgeList(g)| >= |g.forward|
  {
  }

  lemma StartFits(previous: Option<Version>, flat: seq<real>, g: Graph, c: Setting, start: World)
    requires c.inp.Valid() && |c.inp.direct| == |g.nodes| + |g.members| && Starts(previous, flat, g, c, start)
    ensures Fits(c.inp, start)
  {
  }

  /**
   The version that is published: states and inputs of the nodes and propositions, strengths of the proposition edges,
   the last where an edge is there twice.
   */
  method Publish(g: Graph, inp: Inputs, w: World) returns (o: Outcome)
    requires Fits(inp, w) && |inp.direct| == |g.nodes| + |g.members| && |g.forward| <= |inp.src|
    requires forall j, k :: 0 <= j < k < |g.members| ==> g.members[j].pid != g.members[k].pid
    ensures o.strength == w.strength && o.version.state == w.state[..|g.nodes|] && o.version.delta == w.delta
    ensures o.version.edges == |g.forward| && VersionOk(o.version) && (InUnit(w.state) ==> VersionInUnit(o.version))
    ensures o.version.known == Some((inp.direct[..|g.nodes|], inp.unresolved[..|g.nodes|]))
    ensures o.version.propositions == Filled(Pids(g), KeptOf(g, inp, w))
    ensures o.version.propositionStrength == Filled(EdgeNames(g, inp), w.strength[|g.forward|..])
  {
    var n := |g.nodes|;
    var propositions := Fill(Pids(g), KeptOf(g, inp, w));
    var strengths := Fill(EdgeNames(g, inp), w.strength[|g.forward|..]);
    o := Outcome(w.strength,
           Version(w.state[..n], Some((inp.direct[..n], inp.unresolved[..n])), |g.forward|, propositions, strengths,
                                     w.delta));
    if InUnit(w.state) { KeptInUnit(g, inp, w); }
  }

  lemma KeptInUnit(g: Graph, inp: Inputs, w: World)
    requires Fits(inp, w) && |inp.direct| == |g.nodes| + |g.members| && InUnit(w.state)
    requires forall j, k :: 0 <= j < k < |g.members| ==> g.members[j].pid != g.members[k].pid
    ensures forall pid :: pid in Filled(Pids(g), KeptOf(g, inp, w)) ==>
              -1.0 <= Filled(Pids(g), KeptOf(g, inp, w))[pid].state <= 1.0
  {
    hide Filled;
    var pids, kept := Pids(g), KeptOf(g, inp, w);
    forall pid | pid in Filled(pids, kept) ensures -1.0 <= Filled(pids, kept)[pid].state <= 1.0 {
      FilledKeys(pids, kept, pid);
      var k :| 0 <= k < |pids| && pids[k] == pid;
      FilledLast(pids, kept, k);
    }
  }

  // ----- generations -----

  /** A generation as the consolidator meets it. */
  datatype Generation = Generation(basis: Basis, graph: Graph, plans: Plans)

  /** Edges appended since the last consolidation stand at a placeholder. */
  function Appended(flat: seq<real>, n: nat): seq<real> {
    if |flat| < n then flat + seq(n - |flat|, _ => BASE_PENDING) else flat[..n]
  }

  /**
   Generation after generation, each started from what the one before left: whatever evidence came, changed or was
   withdrawn in between, every promoted edge has evidence now, and every state lies in [-1, 1].
   */
  method Generations(gens: seq<Generation>) returns (outcomes: seq<Outcome>)
    requires forall k :: 0 <= k < |gens| ==> GraphOk(gens[k].basis, gens[k].graph) && Runnable(gens[k].plans)
    requires forall k :: 0 <= k < |gens| ==> Squashes(gens[k].basis.tanh) && AllSquash(gens[k].plans)
    ensures |outcomes| == |gens|
    ensures forall k :: 0 <= k < |gens| ==>
              Holds(gens[k].basis, gens[k].graph, outcomes[k]) && VersionInUnit(outcomes[k].version)
  {
    hide GraphOk, Runnable, Squashes, AllSquash, Holds, VersionInUnit, Starts, Built, Consolidated;
    outcomes := [];
    var previous: Option<Version>, flat: seq<real> := None, [];
    for k := 0 to |gens|
      invariant |outcomes| == k && (previous.Some? ==> VersionInUnit(previous.value))
      invariant forall j :: 0 <= j < k ==>
                  Holds(gens[j].basis, gens[j].graph, outcomes[j]) && VersionInUnit(outcomes[j].version)
    {
      var gen := gens[k];
      var o := Consolidate(gen.basis, gen.graph, previous, Appended(flat, |gen.graph.forward|), gen.plans);
      outcomes := outcomes + [o];
      previous, flat := Some(o.version),
        if |gen.graph.forward| <= |o.strength| then o.strength[..|gen.graph.forward|] else o.strength;
    }
  }
}
