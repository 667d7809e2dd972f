/**
 The evidence layer of `vrs_evidence.py`: which records observe a hypothesis, and what weight that grants them. The
 accumulator that turns a hypothesis's observations into effective counts is a parameter.
 */
module Evidence {
  import opened RefineKernel
  import opened Wrappers

  const MINIMUM_SAMPLES: real := 4.0

  datatype RecordOutcome = Success | Failure | Pending

  datatype Polarity = Supports | Refutes | Undeclared

  /** What a record says besides its outcome; `axes` are those its metadata declare. */
  datatype Claim = Claim(address: string, family: string, context: string, axes: seq<string>, producer: string)

  /** `signed` is false when a registered producer's signature did not hold. */
  datatype Record = Record(id: string, outcome: RecordOutcome, polarity: Polarity, signed: bool, proposition: string,
      claim: Claim)

  /** One observation of a hypothesis; its step is the record's place in the journal. */
  datatype Observation = Observation(claim: Claim, supports: bool, step: nat)

  /** The accumulator's effective counts for a hypothesis. */
  datatype Counts = Counts(support: real, refute: real)

  /** The accumulator: counts over the required axes, and whether it suspects a regime change. */
  datatype Accumulator = Accumulator(counts: seq<Observation> -> Counts, regime: seq<Observation> -> bool)

  datatype Memory = Memory(records: seq<Record>, superseded: set<string>, aliases: map<string, string>,
      accumulator: Accumulator)

  ghost predicate Sane(m: Memory) {
    && (forall i, j :: 0 <= i < j < |m.records| ==> m.records[i].id != m.records[j].id)
    && forall o :: m.accumulator.counts(o).support >= 0.0 && m.accumulator.counts(o).refute >= 0.0
  }

  /** `record_polarity`. */
  function RecordPolarity(r: Record, superseded: set<string>): int {
    if r.id in superseded then 0
    else
      match r.outcome
      case Success => 1
      case Failure => -1
      case Pending => match r.polarity case Supports => 1 case Refutes => -1 case Undeclared => 0
  }

  /** A record that is evidence for a declared hypothesis. */
  predicate IsEvidence(m: Memory, r: Record) { RecordPolarity(r, m.superseded) != 0 && r.signed && r.proposition != "" }

  /** The proposition a record's claim counts for, aliases resolved. */
  function Canonical(m: Memory, proposition: string): string {
    if proposition in m.aliases then m.aliases[proposition] else proposition
  }

  function Observed(m: Memory, r: Record, step: nat): Observation {
    Observation(r.claim, RecordPolarity(r, m.superseded) > 0, step)
  }

  /** The observations of a hypothesis among the first `k` records, in journal order. */
  function Observations(m: Memory, h: string, k: nat): seq<Observation>
    requires k <= |m.records|
  {
    if k == 0 then []
    else
      var r := m.records[k - 1];
      Observations(m, h, k - 1)
        + (if IsEvidence(m, r) && Canonical(m, r.proposition) == h then [Observed(m, r, k - 1)] else [])
  }

  function AllObservations(m: Memory, h: string): seq<Observation> { Observations(m, h, |m.records|) }

  /** The arbiter's proposal weight for one side of a hypothesis. */
  function ProposalWeight(c: Counts, polarity: int): real {
    var samples := c.support + c.refute;
    var opposing := if samples > 0.0 then (if polarity > 0 then c.refute else c.support) / samples else 0.0;
    var uncertainty := 1.0 - Min(1.0, samples / MINIMUM_SAMPLES);
    (1.0 - opposing) * (1.0 - uncertainty)
  }

  /** What the evidence layer grants a record. */
  ghost function Weight(m: Memory, r: Record): real {
    if !IsEvidence(m, r) then 0.0
    else ProposalWeight(m.accumulator.counts(AllObservations(m, Canonical(m, r.proposition))),
           RecordPolarity(r, m.superseded))
  }

  function Get<K, V>(values: map<K, V>, key: K, default: V): V { if key in values then values[key] else default }

  /** Polarity and weight of every record, the hypothesis it counts for, and every hypothesis's observations. */
  datatype View = View(polarity: map<string, int>, weight: map<string, real>, primary: map<string, string>,
                       hypotheses: map<string, seq<Observation>>)

  /** What `build` has after the first `k` records, before the weights. */
  ghost predicate Folded(m: Memory, k: nat, v: View) {
    && k <= |m.records|
    && (forall i :: 0 <= i < k ==> FoldedOne(m, m.records[i], v))
    && (forall i :: k <= i < |m.records| ==> Unknown(m.records[i].id, v))
    && Collected(m, v.hypotheses, k)
  }

  ghost predicate Collected(m: Memory, hypotheses: map<string, seq<Observation>>, k: nat)
    requires k <= |m.records|
  {
    forall h :: Gathers(hypotheses, h, Observations(m, h, k))
  }

  ghost predicate FoldedOne(m: Memory, r: Record, v: View) {
    && r.id in v.polarity && v.polarity[r.id] == RecordPolarity(r, m.superseded) && Get(v.weight, r.id, 0.0) == 0.0
    && (if IsEvidence(m, r) then r.id in v.primary && v.primary[r.id] == Canonical(m, r.proposition)
         else r.id !in v.primary)
  }

  ghost predicate Unknown(id: string, v: View) { id !in v.polarity && id !in v.weight && id !in v.primary }

  /** A hypothesis is there exactly when something was observed of it. */
  ghost predicate Gathers(hypotheses: map<string, seq<Observation>>, h: string, all: seq<Observation>) {
    Get(hypotheses, h, []) == all && (h in hypotheses <==> all != [])
  }

  function Took(m: Memory, v: View, r: Record, step: nat): View {
    var pol := RecordPolarity(r, m.superseded);
    var h := Canonical(m, r.proposition);
    if pol == 0 then v.(polarity := v.polarity[r.id := pol])
    else if !r.signed || r.proposition == ""
         then v.(polarity := v.polarity[r.id := pol], weight := v.weight[r.id := 0.0])
    else
      View(v.polarity[r.id := pol], v.weight, v.primary[r.id := h],
           v.hypotheses[h := Get(v.hypotheses, h, []) + [Observed(m, r, step)]])
  }

  lemma FoldStep(m: Memory, k: nat, v: View)
    requires Sane(m) && Folded(m, k, v) && k < |m.records|
    ensures Folded(m, k + 1, Took(m, v, m.records[k], k))
  {
    hide RecordPolarity, Canonical, Collected, FoldedOne, Unknown, Took, Sane;
    var r, after := m.records[k], Took(m, v, m.records[k], k);
    IdsDiffer(m, k);
    CollectOne(m, k, v);
    TookOne(m, v, r, k);
    forall i | 0 <= i < |m.records| && i != k
      ensures FoldedOne(m, m.records[i], v) ==> FoldedOne(m, m.records[i], after)
      ensures Unknown(m.records[i].id, v) ==> Unknown(m.records[i].id, after)
    {
      TookOther(m, v, r, k, m.records[i]);
    }
  }

  lemma TookOne(m: Memory, v: View, r: Record, step: nat)
    requires Unknown(r.id, v)
    ensures FoldedOne(m, r, Took(m, v, r, step))
  {
    hide RecordPolarity, Canonical;
  }

  lemma TookOther(m: Memory, v: View, r: Record, step: nat, other: Record)
    requires other.id != r.id
    ensures FoldedOne(m, other, v) ==> FoldedOne(m, other, Took(m, v, r, step))
    ensures Unknown(other.id, v) ==> Unknown(other.id, Took(m, v, r, step))
  {
    hide RecordPolarity, Canonical;
  }

  lemma CollectOne(m: Memory, k: nat, v: View)
    requires k < |m.records| && Collected(m, v.hypotheses, k)
    ensures Collected(m, Took(m, v, m.records[k], k).hypotheses, k + 1)
  {
    hide RecordPolarity, Canonical;
    var after, n := Took(m, v, m.records[k], k).hypotheses, k + 1;
    forall h ensures Gathers(after, h, Observations(m, h, n)) {
      assert Gathers(v.hypotheses, h, Observations(m, h, k));
    }
  }

  /** A record's evidence, as `build` leaves it. */
  ghost predicate Known(m: Memory, r: Record, v: View) {
    && Get(v.polarity, r.id, 0) == RecordPolarity(r, m.superseded)
    && Get(v.weight, r.id, 0.0) == Weight(m, r)
    && (if IsEvidence(m, r) then r.id in v.primary && v.primary[r.id] == Canonical(m, r.proposition)
         else r.id !in v.primary)
  }

  /** `build`: the journal in order, then the weight of every record that touched a hypothesis. */
  method Build(m: Memory) returns (v: View)
    requires Sane(m)
    ensures forall i :: 0 <= i < |m.records| ==> Known(m, m.records[i], v)
    ensures forall h :: Gathers(v.hypotheses, h, AllObservations(m, h))
  {
    hide ProposalWeight, RecordPolarity, Canonical, Folded, Sane, FoldedOne, Gathers;
    v := View(map[], map[], map[], map[]);
    NothingFolded(m, v);
    for k := 0 to |m.records|
      invariant Folded(m, k, v)
    {
      FoldStep(m, k, v);
      v := Took(m, v, m.records[k], k);
    }
    ghost var plain := v;
    FoldedFacts(m, plain);
    var weight := v.weight;
    for k := 0 to |m.records|
      invariant forall i :: k <= i < |m.records| ==> Get(weight, m.records[i].id, 0.0) == 0.0
      invariant forall i :: 0 <= i < k ==> Get(weight, m.records[i].id, 0.0) == Weight(m, m.records[i])
    {
      var id := m.records[k].id;
      IdsDiffer(m, k);
      FoldedAt(m, plain, k);
      if id in v.primary {
        weight := weight[id := ProposalWeight(m.accumulator.counts(v.hypotheses[v.primary[id]]), v.polarity[id])];
      }
    }
    v := v.(weight := weight);
    forall i | 0 <= i < |m.records| ensures Known(m, m.records[i], v) { FoldedAt(m, plain, i); }
  }

  lemma IdsDiffer(m: Memory, k: nat)
    requires Sane(m) && k < |m.records|
    ensures forall i :: 0 <= i < |m.records| && i != k ==> m.records[i].id != m.records[k].id
  {
  }

  lemma NothingFolded(m: Memory, v: View)
    requires v == View(map[], map[], map[], map[])
    ensures Folded(m, 0, v)
  {
  }

  lemma FoldedFacts(m: Memory, v: View)
    requires Folded(m, |m.records|, v)
    ensures forall i :: 0 <= i < |m.records| ==> Get(v.weight, m.records[i].id, 0.0) == 0.0
    ensures forall h :: Gathers(v.hypotheses, h, AllObservations(m, h))
  {
    forall i | 0 <= i < |m.records| ensures Get(v.weight, m.records[i].id, 0.0) == 0.0 {
      assert FoldedOne(m, m.records[i], v);
    }
  }

  lemma FoldedAt(m: Memory, v: View, i: nat)
    requires Folded(m, |m.records|, v) && i < |m.records|
    ensures var r := m.records[i];
            && r.id in v.polarity && v.polarity[r.id] == RecordPolarity(r, m.superseded)
            && (r.id in v.primary <==> IsEvidence(m, r))
            && (IsEvidence(m, r) ==>
                  && v.primary[r.id] == Canonical(m, r.proposition) && v.primary[r.id] in v.hypotheses
                  && v.hypotheses[v.primary[r.id]] == AllObservations(m, v.primary[r.id]))
  {
    hide RecordPolarity, Canonical;
    var r := m.records[i];
    assert FoldedOne(m, r, v);
    if IsEvidence(m, r) {
      var h := Canonical(m, r.proposition);
      SomethingObserved(m, h, |m.records|, i);
      assert Gathers(v.hypotheses, h, Observations(m, h, |m.records|));
    }
  }

  lemma {:induction false} SomethingObserved(m: Memory, h: string, k: nat, i: nat)
    requires i < k <= |m.records| && IsEvidence(m, m.records[i]) && Canonical(m, m.records[i].proposition) == h
    ensures Observations(m, h, k) != []
  {
    if i < k - 1 { SomethingObserved(m, h, k - 1, i); }
  }

  // ----- what counts -----

  /** The two memories differ in records that are evidence in neither. */
  ghost predicate SameEvidence(m: Memory, n: Memory) {
    && |m.records| == |n.records| && m.aliases == n.aliases && m.accumulator == n.accumulator
    && forall i :: 0 <= i < |m.records| ==> SameRecord(m, m.records[i], n, n.records[i])
  }

  ghost predicate SameRecord(m: Memory, r: Record, n: Memory, s: Record) {
    && (IsEvidence(m, r) <==> IsEvidence(n, s))
    && (IsEvidence(m, r) ==> r == s && RecordPolarity(r, m.superseded) == RecordPolarity(s, n.superseded))
  }

  lemma {:induction false} SameObservations(m: Memory, n: Memory, h: string, k: nat)
    requires SameEvidence(m, n) && k <= |m.records|
    ensures Observations(m, h, k) == Observations(n, h, k)
  {
    hide IsEvidence, RecordPolarity;
    if k > 0 {
      SameObservations(m, n, h, k - 1);
      assert SameRecord(m, m.records[k - 1], n, n.records[k - 1]);
    }
  }

  /** Pending, superseded, unsigned and undeclared records change no weight, whatever they say. */
  lemma OnlyEvidenceCounts(m: Memory, n: Memory, i: nat)
    requires SameEvidence(m, n) && i < |m.records|
    ensures Weight(m, m.records[i]) == Weight(n, n.records[i])
  {
    hide IsEvidence, RecordPolarity, ProposalWeight;
    assert SameRecord(m, m.records[i], n, n.records[i]);
    SameObservations(m, n, Canonical(m, m.records[i].proposition), |m.records|);
  }

  lemma ShareBelow(part: real, rest: real)
    requires part >= 0.0 && rest >= 0.0 && part + rest > 0.0
    ensures 0.0 <= part / (part + rest) <= 1.0
    ensures part / (part + rest) == 1.0 <==> rest == 0.0
  {
    var q := part / (part + rest);
    assert q * (part + rest) == part;
  }

  lemma UnitProduct(x: real, y: real)
    requires 0.0 <= x <= 1.0 && 0.0 <= y <= 1.0
    ensures 0.0 <= x * y <= 1.0
    ensures x * y > 0.0 <==> x > 0.0 && y > 0.0
  {
    ProductSign(x, y);
    ProductSign(1.0 - x, y);
    assert (1.0 - x) * y == y - x * y;
  }

  lemma ProductSign(x: real, y: real)
    requires x >= 0.0 && y >= 0.0
    ensures x * y >= 0.0 && (x * y > 0.0 <==> x > 0.0 && y > 0.0)
  {
  }

  /** The evidence for the record's own side. */
  function Own(c: Counts, polarity: int): real { if polarity > 0 then c.support else c.refute }

  lemma ProposalWeightFacts(c: Counts, polarity: int)
    requires c.support >= 0.0 && c.refute >= 0.0
    ensures 0.0 <= ProposalWeight(c, polarity) <= 1.0
    ensures ProposalWeight(c, polarity) > 0.0 <==> Own(c, polarity) > 0.0
  {
    var samples := c.support + c.refute;
    var opposed := if polarity > 0 then c.refute else c.support;
    var sufficiency := Min(1.0, samples / MINIMUM_SAMPLES);
    if samples > 0.0 {
      ShareBelow(opposed, Own(c, polarity));
      UnitProduct(1.0 - opposed / samples, sufficiency);
      assert 1.0 - (1.0 - sufficiency) == sufficiency;
    } else {
      assert sufficiency == 0.0;
      UnitProduct(1.0, sufficiency);
    }
  }

  /**
   A record carries weight exactly when it is live and resolved, verified, declared, and supported on its own side.
   */
  lemma WeightIsEvidence(m: Memory, r: Record)
    requires Sane(m)
    ensures 0.0 <= Weight(m, r) <= 1.0
    ensures Weight(m, r) > 0.0 <==>
              && RecordPolarity(r, m.superseded) != 0 && r.signed && r.proposition != ""
              && Own(m.accumulator.counts(AllObservations(m, Canonical(m, r.proposition))),
                   RecordPolarity(r, m.superseded)) > 0.0
  {
    hide ProposalWeight, Observations;
    ProposalWeightFacts(m.accumulator.counts(AllObservations(m, Canonical(m, r.proposition))),
      RecordPolarity(r, m.superseded));
  }

  lemma PendingHasNoWeight(m: Memory, r: Record)
    ensures RecordPolarity(r, m.superseded) == 0 ==> Weight(m, r) == 0.0
  {
  }

  // ----- what a hypothesis gives its node -----

  /** Moves with the balance of its observations, as far as there are enough of them. */
  function HypothesisDirect(c: Counts, tanh: real -> real): real {
    var samples := c.support + c.refute;
    if samples <= 0.0 then 0.0 else tanh((c.support - c.refute) / samples * Min(1.0, samples / MINIMUM_SAMPLES))
  }

  function Families(all: seq<Observation>, supports: bool): set<string> {
    set o | o in all && o.supports == supports :: o.claim.family
  }

  /** Opposing evidence from different source families, or a suspected regime change. */
  predicate HypothesisUnresolved(a: Accumulator, all: seq<Observation>) {
    || (Families(all, true) != {} && Families(all, false) != {} && |Families(all, true) + Families(all, false)| > 1)
    || a.regime(all)
  }
}
