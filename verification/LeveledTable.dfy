/**
 The open-addressed, leveled slot table behind both on-disk directories (`exact_replay.py` and
 `cue_shards.py`): the double-hashing probe, the level chain of one key prefix, and what growing
 such a chain can never do to a key that a reader already finds.
 */
module LeveledTable {
  import opened Encoding
  import opened Wrappers

  /** A 32-byte digest; the all-zero digest marks an empty slot on disk and is never a key. */
  type Key = k: seq<Byte> | |k| == 32 && (exists i :: 0 <= i < 32 && k[i] != 0)
    witness (var w: seq<Byte> := seq(32, _ => 1); assert w[0] != 0; w)

  function Pow2(p: nat): (r: nat)
    ensures r >= 1
    ensures p >= 1 ==> r >= 2 && r % 2 == 0
  {
    if p == 0 then 1 else 2 * Pow2(p - 1)
  }

  function Start(key: Key, p: nat): nat {
    LittleEndian(key[1..9]) % Pow2(p)
  }

  /** `(int.from_bytes(key[9:17]) | 1) & mask or 1`. */
  function Step(key: Key, p: nat): nat {
    var raw := LittleEndian(key[9..17]);
    var step := (if raw % 2 == 0 then raw + 1 else raw) % Pow2(p);
    if step == 0 then 1 else step
  }

  function SlotAt(key: Key, p: nat, c: nat): (slot: nat)
    ensures slot < Pow2(p)
  {
    (Start(key, p) + c * Step(key, p)) % Pow2(p)
  }

  // ----- the odd-step probe visits every slot exactly once -----

  lemma OddTimesOdd(d: nat, e: nat)
    requires d % 2 == 1 && e % 2 == 1
    ensures (d * e) % 2 == 1
  {
    var a, b := d / 2, e / 2;
    assert d * e == 2 * (a * e) + e by { assert d == 2 * a + 1; }
  }

  lemma OddRemainder(n: nat, h: nat)
    requires n % 2 == 1 && h >= 1
    ensures (n % (2 * h)) % 2 == 1
  {
    var m := 2 * h;
    var q, r := n / m, n % m;
    assert n == m * q + r;
    assert m * q == 2 * (h * q);
  }

  lemma StepIsOdd(key: Key, p: nat)
    requires p >= 1
    ensures Step(key, p) % 2 == 1
  {
    var raw := LittleEndian(key[9..17]);
    OddRemainder(if raw % 2 == 0 then raw + 1 else raw, Pow2(p - 1));
  }

  lemma Twice(a: int, b: int)
    ensures a * (2 * b) == 2 * (a * b) == (2 * a) * b
  {
  }

  lemma PowDoubles(a: int, p: nat)
    requires p >= 1
    ensures a * Pow2(p) == 2 * (a * Pow2(p - 1))
  {
    Twice(a, Pow2(p - 1));
  }

  lemma HalfOfEven(d: nat, step: nat, half: nat) returns (e: nat)
    requires step % 2 == 1 && d * step == 2 * half
    ensures d == 2 * e && e * step == half
  {
    if d % 2 == 1 {
      OddTimesOdd(d, step);
      assert false;
    }
    e := d / 2;
    Twice(e, step);
  }

  /** A power of two that divides `d * step` for an odd `step` divides `d`. */
  lemma {:induction false} OddFactorCancels(d: nat, step: nat, p: nat, q: nat) returns (k: nat)
    requires step % 2 == 1
    requires d * step == q * Pow2(p)
    ensures d == k * Pow2(p)
  {
    if p == 0 {
      k := d;
    } else {
      PowDoubles(q, p);
      var e := HalfOfEven(d, step, q * Pow2(p - 1));
      k := OddFactorCancels(e, step, p - 1, q);
      PowDoubles(k, p);
    }
  }

  /** Two numbers with the same remainder differ by a multiple. */
  lemma SameRemainder(x: nat, y: nat, m: nat) returns (q: nat)
    requires m >= 1 && x <= y && x % m == y % m
    ensures y - x == q * m
  {
    var qx, qy := x / m, y / m;
    assert x == m * qx + x % m && y == m * qy + y % m;
    assert y - x == m * (qy - qx);
    q := qy - qx;
  }

  lemma ProductSign(m: nat, k: nat)
    requires m >= 1 && k >= 1
    ensures m * k >= m && k * m >= m
  {}

  lemma ProductOrder(i: nat, j: nat, s: nat)
    requires i <= j
    ensures 0 <= i * s <= j * s && j * s - i * s == (j - i) * s
  {}

  lemma ProbeInjective(key: Key, p: nat, i: nat, j: nat)
    requires p >= 1 && i < j < Pow2(p)
    ensures SlotAt(key, p, i) != SlotAt(key, p, j)
  {
    var m, s, a := Pow2(p), Step(key, p), Start(key, p);
    if SlotAt(key, p, i) == SlotAt(key, p, j) {
      StepIsOdd(key, p);
      ProductOrder(i, j, s);
      var q := SameRemainder(a + i * s, a + j * s, m);
      var k := OddFactorCancels(j - i, s, p, q);
      if k >= 1 { ProductSign(m, k); }
      assert false;
    }
  }

  function Visited(key: Key, p: nat, n: nat): (slots: set<nat>)
    ensures forall s :: s in slots ==> s < Pow2(p)
  {
    set c | 0 <= c < n :: SlotAt(key, p, c)
  }

  lemma {:induction false} VisitedCount(key: Key, p: nat, n: nat)
    requires p >= 1 && n <= Pow2(p)
    ensures |Visited(key, p, n)| == n
  {
    hide SlotAt;
    if n > 0 {
      VisitedCount(key, p, n - 1);
      forall c | 0 <= c < n - 1 ensures SlotAt(key, p, c) != SlotAt(key, p, n - 1) {
        ProbeInjective(key, p, c, n - 1);
      }
      assert Visited(key, p, n) == Visited(key, p, n - 1) + {SlotAt(key, p, n - 1)};
    }
  }

  lemma {:induction false} BoundedSetSize(s: set<nat>, n: nat)
    requires forall x :: x in s ==> x < n
    ensures |s| <= n
    ensures |s| == n ==> forall x :: 0 <= x < n ==> x in s
  {
    if n == 0 {
      assert s == {};
    } else {
      BoundedSetSize(s - {n - 1}, n - 1);
      if n - 1 in s { assert |s| == |s - {n - 1}| + 1; } else { assert s == s - {n - 1}; }
    }
  }

  /** The probe sequence of any key over 2^p slots is a permutation: every slot has exactly one turn. */
  lemma ProbeIsPermutation(key: Key, p: nat, slot: nat) returns (c: nat)
    requires p >= 1 && slot < Pow2(p)
    ensures c < Pow2(p) && SlotAt(key, p, c) == slot
    ensures forall d: nat :: d < Pow2(p) && SlotAt(key, p, d) == slot ==> d == c
  {
    VisitedCount(key, p, Pow2(p));
    BoundedSetSize(Visited(key, p, Pow2(p)), Pow2(p));
    assert slot in Visited(key, p, Pow2(p));
    c :| 0 <= c < Pow2(p) && SlotAt(key, p, c) == slot;
    forall d: nat | d < Pow2(p) && SlotAt(key, p, d) == slot ensures d == c {
      if d < c { ProbeInjective(key, p, d, c); } else if c < d { ProbeInjective(key, p, c, d); }
    }
  }

  // ----- one segment -----

  datatype Slot<+P> = Vacant | Used(key: Key, payload: P)

  datatype Probe = Found(slot: nat) | Free(slot: nat) | Full

  ghost predicate Fits<P>(slots: seq<Slot<P>>, p: nat) { p >= 1 && |slots| == Pow2(p) }

  function ProbeFrom<P>(slots: seq<Slot<P>>, key: Key, p: nat, c: nat): (r: Probe)
    requires Fits(slots, p) && c <= Pow2(p)
    ensures !r.Full? ==> r.slot < |slots|
    ensures r.Found? ==> slots[r.slot].Used? && slots[r.slot].key == key
    ensures r.Free? ==> slots[r.slot].Vacant?
    decreases Pow2(p) - c
  {
    if c == Pow2(p) then Full
    else
      var s := SlotAt(key, p, c);
      if slots[s].Used? && slots[s].key == key then Found(s)
      else if slots[s].Vacant? then Free(s)
      else ProbeFrom(slots, key, p, c + 1)
  }

  function ProbeSlots<P>(slots: seq<Slot<P>>, key: Key, p: nat): Probe
    requires Fits(slots, p)
  {
    ProbeFrom(slots, key, p, 0)
  }

  /** No slot of `before` is emptied or given to another key in `after`. */
  ghost predicate SlotsGrow<P>(before: seq<Slot<P>>, after: seq<Slot<P>>) {
    && |before| == |after|
    && forall s :: 0 <= s < |before| && before[s].Used? ==> after[s].Used? && after[s].key == before[s].key
  }

  lemma {:induction false} FoundStays<P>(before: seq<Slot<P>>, after: seq<Slot<P>>, key: Key, p: nat, c: nat)
    requires Fits(before, p) && SlotsGrow(before, after) && c <= Pow2(p)
    requires ProbeFrom(before, key, p, c).Found?
    ensures ProbeFrom(after, key, p, c) == ProbeFrom(before, key, p, c)
    decreases Pow2(p) - c
  {
    if c < Pow2(p) {
      var s := SlotAt(key, p, c);
      if !(before[s].Used? && before[s].key == key) { FoundStays(before, after, key, p, c + 1); }
    }
  }

  /** Two slot arrays that hold the same keys in the same slots answer every probe alike. */
  lemma {:induction false} SameKeysProbeAlike<P>(a: seq<Slot<P>>, b: seq<Slot<P>>, key: Key, p: nat, c: nat)
    requires Fits(a, p) && SlotsGrow(a, b) && SlotsGrow(b, a) && c <= Pow2(p)
    ensures ProbeFrom(a, key, p, c) == ProbeFrom(b, key, p, c)
    decreases Pow2(p) - c
  {
    if c < Pow2(p) { SameKeysProbeAlike(a, b, key, p, c + 1); }
  }

  lemma {:induction false} FillingFreeSlotFinds<P>(slots: seq<Slot<P>>, key: Key, p: nat, c: nat, payload: P)
    requires Fits(slots, p) && c <= Pow2(p)
    requires ProbeFrom(slots, key, p, c).Free?
    ensures var s := ProbeFrom(slots, key, p, c).slot;
            ProbeFrom(slots[s := Used(key, payload)], key, p, c) == Found(s)
    decreases Pow2(p) - c
  {
    if c < Pow2(p) {
      var s := SlotAt(key, p, c);
      if slots[s].Used? { FillingFreeSlotFinds(slots, key, p, c + 1, payload); }
    }
  }

  lemma {:induction false} FullSkipsNothing<P>(slots: seq<Slot<P>>, key: Key, p: nat, c: nat, d: nat)
    requires Fits(slots, p) && c <= d < Pow2(p)
    requires ProbeFrom(slots, key, p, c).Full?
    ensures slots[SlotAt(key, p, d)].Used? && slots[SlotAt(key, p, d)].key != key
    decreases Pow2(p) - c
  {
    if c < d { FullSkipsNothing(slots, key, p, c + 1, d); }
  }

  /** A probe runs full exactly when every slot is taken and none of them by the key. */
  lemma FullMeansFull<P>(slots: seq<Slot<P>>, key: Key, p: nat)
    requires Fits(slots, p)
    ensures ProbeSlots(slots, key, p).Full?
       <==> forall s :: 0 <= s < |slots| ==> slots[s].Used? && slots[s].key != key
  {
    if ProbeSlots(slots, key, p).Full? {
      forall s | 0 <= s < |slots| ensures slots[s].Used? && slots[s].key != key {
        var d := ProbeIsPermutation(key, p, s);
        FullSkipsNothing(slots, key, p, 0, d);
      }
    }
  }

  // ----- the level chain of one prefix -----

  datatype Segment<+P> = Segment(slots: seq<Slot<P>>, count: nat, sealed: bool)

  type Chain<+P> = seq<Segment<P>>

  function Threshold(p: nat): nat {
    var t := Pow2(p) * 7 / 10;
    if t < 1 then 1 else t
  }

  lemma ThresholdLeavesRoom(p: nat)
    requires p >= 1
    ensures 1 <= Threshold(p) < Pow2(p)
  {}

  ghost predicate Shaped<P>(chain: Chain<P>, powers: seq<nat>) {
    && |chain| <= |powers|
    && forall i :: 0 <= i < |chain| ==> Fits(chain[i].slots, powers[i])
  }

  ghost predicate HoldsKeys<P>(segment: Segment<P>) {
    exists s :: 0 <= s < |segment.slots| && segment.slots[s].Used?
  }

  /** Overflow routing: a level is used or closed only once the level before it is closed to new keys. */
  ghost predicate Routed<P>(chain: Chain<P>) {
    forall i :: 0 < i < |chain| && (chain[i].sealed || HoldsKeys(chain[i])) ==> chain[i - 1].sealed
  }

  datatype Place = At(level: nat, slot: nat) | Nowhere

  /** What a reader does: level by level until the key, an open level without it, or a missing file. */
  function Seek<P>(chain: Chain<P>, powers: seq<nat>, key: Key, i: nat): (place: Place)
    requires Shaped(chain, powers)
    ensures place.At? ==> i <= place.level < |chain| && place.slot < |chain[place.level].slots|
    ensures place.At? ==> chain[place.level].slots[place.slot].Used?
    ensures place.At? ==> chain[place.level].slots[place.slot].key == key
    decreases |chain| - i
  {
    if i >= |chain| then Nowhere
    else match ProbeSlots(chain[i].slots, key, powers[i])
      case Found(s) => At(i, s)
      case Full => Seek(chain, powers, key, i + 1)
      case Free(_) => if chain[i].sealed then Seek(chain, powers, key, i + 1) else Nowhere
  }

  /** What any put, any rejected put and any interrupted put may do to a chain. */
  ghost predicate ChainGrows<P>(before: Chain<P>, after: Chain<P>) {
    && |before| <= |after|
    && forall i :: 0 <= i < |before| ==>
         && SlotsGrow(before[i].slots, after[i].slots)
         && (before[i].sealed ==> after[i].sealed && SlotsGrow(after[i].slots, before[i].slots))
  }

  lemma ChainGrowsTransitive<P>(a: Chain<P>, b: Chain<P>, c: Chain<P>)
    requires ChainGrows(a, b) && ChainGrows(b, c)
    ensures ChainGrows(a, c)
  {
    forall i | 0 <= i < |a|
      ensures SlotsGrow(a[i].slots, c[i].slots)
      ensures a[i].sealed ==> c[i].sealed && SlotsGrow(c[i].slots, a[i].slots)
    {
      assert SlotsGrow(a[i].slots, b[i].slots) && SlotsGrow(b[i].slots, c[i].slots);
    }
  }

  lemma {:induction false} EarlierLevelsSealed<P>(chain: Chain<P>, i: nat, j: nat)
    requires Routed(chain) && j < i < |chain|
    requires chain[i].sealed || HoldsKeys(chain[i])
    ensures chain[j].sealed
  {
    if j < i - 1 { EarlierLevelsSealed(chain, i - 1, j); }
  }

  lemma UsedSlotHolds<P>(segment: Segment<P>, slot: nat)
    requires slot < |segment.slots| && segment.slots[slot].Used?
    ensures HoldsKeys(segment)
  {
  }

  /** A key a reader finds stays at that very place, whatever lawful growth or crash follows. */
  lemma {:induction false} SeekIsStable<P>(before: Chain<P>, after: Chain<P>, powers: seq<nat>, key: Key, i: nat)
    requires Shaped(before, powers) && Shaped(after, powers) && Routed(before)
    requires ChainGrows(before, after)
    requires Seek(before, powers, key, i).At?
    ensures Seek(after, powers, key, i) == Seek(before, powers, key, i)
    decreases |before| - i
  {
    hide ProbeFrom, SlotsGrow, HoldsKeys, Routed;
    var place := Seek(before, powers, key, i);
    assert SlotsGrow(before[i].slots, after[i].slots);
    if place.level == i {
      FoundStays(before[i].slots, after[i].slots, key, powers[i], 0);
    } else {
      assert HoldsKeys(before[place.level]) by { UsedSlotHolds(before[place.level], place.slot); }
      EarlierLevelsSealed(before, place.level, i);
      SameKeysProbeAlike(before[i].slots, after[i].slots, key, powers[i], 0);
      SeekIsStable(before, after, powers, key, i + 1);
    }
  }

  /** A put walks on to the next level: this one is full, or closed and without the key. */
  ghost predicate Passes<P>(chain: Chain<P>, powers: seq<nat>, key: Key, j: nat)
    requires Shaped(chain, powers) && j < |chain|
  {
    var probe := ProbeSlots(chain[j].slots, key, powers[j]);
    probe.Full? || (probe.Free? && chain[j].sealed)
  }

  /** A lawful write: the next free slot of the key in the first level that is still open to it. */
  lemma {:induction false} InsertIsFound<P>(chain: Chain<P>, powers: seq<nat>, key: Key, at: nat, i: nat, slot: nat,
      payload: P, count: nat, sealed: bool)
    requires Shaped(chain, powers) && i <= at < |chain|
    requires forall j :: i <= j < at ==> Passes(chain, powers, key, j)
    requires ProbeSlots(chain[at].slots, key, powers[at]) == Free(slot)
    ensures var after := chain[at := Segment(chain[at].slots[slot := Used(key, payload)], count, sealed)];
            Shaped(after, powers) && Seek(after, powers, key, i) == At(at, slot)
    decreases at - i
  {
    if i < at {
      assert Passes(chain, powers, key, i);
      InsertIsFound(chain, powers, key, at, i + 1, slot, payload, count, sealed);
    } else {
      FillingFreeSlotFinds(chain[at].slots, key, powers[at], 0, payload);
    }
  }

  // ----- sealing and creating levels -----

  /** Only level states changed and fresh levels were appended: no slot of an existing level did. */
  ghost predicate Resealed<P>(before: Chain<P>, after: Chain<P>) {
    && |before| <= |after|
    && (forall i :: 0 <= i < |before| ==> after[i].slots == before[i].slots && (before[i].sealed ==> after[i].sealed))
    && (forall i :: |before| <= i < |after| ==> !HoldsKeys(after[i]))
  }

  lemma {:induction false} NoKeysNowhere<P>(chain: Chain<P>, powers: seq<nat>, key: Key, i: nat)
    requires Shaped(chain, powers)
    requires forall j :: i <= j < |chain| ==> !HoldsKeys(chain[j])
    ensures Seek(chain, powers, key, i) == Nowhere
    decreases |chain| - i
  {
    if i < |chain| { NoKeysNowhere(chain, powers, key, i + 1); }
  }

  /** No level after an open one holds a key, nor does one a reseal added. */
  lemma NothingBeyondOpen<P>(before: Chain<P>, after: Chain<P>, i: nat)
    requires Routed(before) && Resealed(before, after) && i < |before| && !before[i].sealed
    ensures forall j :: i < j < |after| ==> !HoldsKeys(after[j])
    ensures forall j :: i < j < |before| ==> !HoldsKeys(before[j])
  {
    hide Routed;
    forall j | i < j < |before| ensures !HoldsKeys(before[j]) && !HoldsKeys(after[j]) {
      if HoldsKeys(before[j]) { EarlierLevelsSealed(before, j, i); }
    }
  }

  /** Sealing levels early, as a rejected or interrupted batch does, changes no answer at all. */
  lemma {:induction false} ResealKeepsSeek<P>(before: Chain<P>, after: Chain<P>, powers: seq<nat>, key: Key, i: nat)
    requires Shaped(before, powers) && Shaped(after, powers) && Routed(before)
    requires Resealed(before, after)
    ensures Seek(after, powers, key, i) == Seek(before, powers, key, i)
    decreases |after| - i
  {
    hide ProbeSlots, Routed;
    if i >= |before| {
      NoKeysNowhere(after, powers, key, i);
    } else {
      ResealKeepsSeek(before, after, powers, key, i + 1);
      if !before[i].sealed {
        NothingBeyondOpen(before, after, i);
        NoKeysNowhere(after, powers, key, i + 1);
        if ProbeSlots(before[i].slots, key, powers[i]).Full? { NoKeysNowhere(before, powers, key, i + 1); }
      }
    }
  }

  lemma ResealedTransitive<P>(a: Chain<P>, b: Chain<P>, c: Chain<P>)
    requires Resealed(a, b) && Resealed(b, c)
    ensures Resealed(a, c)
  {
    forall i | |a| <= i < |c| ensures !HoldsKeys(c[i]) {
      if i < |b| { assert !HoldsKeys(b[i]); assert c[i].slots == b[i].slots; }
    }
  }

  // ----- chains no crash has touched -----

  ghost function Occupied<P>(slots: seq<Slot<P>>): (taken: set<nat>) {
    set s: nat | s < |slots| && slots[s].Used?
  }

  /** Every key the chain holds is where a reader finds it, and no level is over its load. */
  ghost predicate Clean<P>(chain: Chain<P>, powers: seq<nat>) {
    && Shaped(chain, powers)
    && Reachable(chain, powers)
    && WithinLoad(chain, powers)
  }

  ghost predicate Reachable<P>(chain: Chain<P>, powers: seq<nat>)
    requires Shaped(chain, powers)
  {
    forall i, s :: 0 <= i < |chain| && 0 <= s < |chain[i].slots| && chain[i].slots[s].Used?
      ==> Seek(chain, powers, chain[i].slots[s].key, 0) == At(i, s)
  }

  ghost predicate WithinLoad<P>(chain: Chain<P>, powers: seq<nat>)
    requires |chain| <= |powers|
  {
    forall i :: 0 <= i < |chain| ==> |Occupied(chain[i].slots)| <= chain[i].count <= Threshold(powers[i])
  }

  lemma ResealedStaysClean<P>(before: Chain<P>, after: Chain<P>, powers: seq<nat>)
    requires Clean(before, powers) && Routed(before) && Resealed(before, after)
    requires Shaped(after, powers) && WithinLoad(after, powers)
    ensures Clean(after, powers)
  {
    forall i, s | 0 <= i < |after| && 0 <= s < |after[i].slots| && after[i].slots[s].Used?
      ensures Seek(after, powers, after[i].slots[s].key, 0) == At(i, s)
    {
      assert HoldsKeys(after[i]);
      assert before[i].slots[s] == after[i].slots[s];
      ResealKeepsSeek(before, after, powers, before[i].slots[s].key, 0);
    }
  }

  /** The 7/10 load limit always leaves a free slot, so no probe of an uncrashed chain runs full. */
  lemma CleanNeverFull<P>(chain: Chain<P>, powers: seq<nat>, key: Key, i: nat)
    requires Clean(chain, powers) && i < |chain|
    ensures !ProbeSlots(chain[i].slots, key, powers[i]).Full?
  {
    ThresholdLeavesRoom(powers[i]);
    FullMeansFull(chain[i].slots, key, powers[i]);
    if forall s :: 0 <= s < |chain[i].slots| ==> chain[i].slots[s].Used? {
      VisitedCount(key, powers[i], Pow2(powers[i]));
      assert Visited(key, powers[i], Pow2(powers[i])) <= Occupied(chain[i].slots);
      SubsetSize(Visited(key, powers[i], Pow2(powers[i])), Occupied(chain[i].slots));
    }
  }

  lemma {:induction false} SubsetSize<T>(a: set<T>, b: set<T>)
    requires a <= b
    ensures |a| <= |b|
  {
    if a != {} {
      var x :| x in a;
      SubsetSize(a - {x}, b - {x});
    }
  }

  lemma OccupyOne<P>(slots: seq<Slot<P>>, slot: nat, key: Key, payload: P)
    requires slot < |slots| && slots[slot].Vacant?
    ensures |Occupied(slots[slot := Used(key, payload)])| == |Occupied(slots)| + 1
  {
    assert Occupied(slots[slot := Used(key, payload)]) == Occupied(slots) + {slot};
  }

  // ----- one insertion: levels closed on the way, then a slot -----

  /** `mid` is `before` after the put's level walk chose `slot` of `level` for a key not found on the way. */
  ghost predicate Chosen<P>(before: Chain<P>, mid: Chain<P>, powers: seq<nat>, key: Key, level: nat, slot: nat) {
    && Shaped(before, powers) && Shaped(mid, powers) && Routed(before) && Routed(mid)
    && Resealed(before, mid)
    && level < |mid|
    && (level < |before| ==> !before[level].sealed)
    && ProbeSlots(mid[level].slots, key, powers[level]) == Free(slot)
    && forall j :: 0 <= j < level ==> Passes(mid, powers, key, j) && mid[j].sealed
  }

  /** The first `i` levels were walked past: full or without the key, and closed. */
  ghost predicate Walked<P>(chain: Chain<P>, powers: seq<nat>, key: Key, i: nat)
    requires Shaped(chain, powers)
  {
    i <= |chain| && forall j :: 0 <= j < i ==> Passes(chain, powers, key, j) && chain[j].sealed
  }

  lemma WalkedStays<P>(before: Chain<P>, after: Chain<P>, powers: seq<nat>, key: Key, i: nat)
    requires Shaped(before, powers) && Shaped(after, powers)
    requires Walked(before, powers, key, i) && Resealed(before, after)
    ensures Walked(after, powers, key, i)
  {
    forall j | 0 <= j < i ensures Passes(after, powers, key, j) && after[j].sealed {
      assert Passes(before, powers, key, j);
    }
  }

  lemma WalkedFurther<P>(chain: Chain<P>, powers: seq<nat>, key: Key, i: nat)
    requires Shaped(chain, powers) && Walked(chain, powers, key, i)
    requires i < |chain| && chain[i].sealed && !ProbeSlots(chain[i].slots, key, powers[i]).Found?
    ensures Walked(chain, powers, key, i + 1)
  {}

  lemma {:induction false} WalkedSkips<P>(chain: Chain<P>, powers: seq<nat>, key: Key, i: nat)
    requires Shaped(chain, powers) && Walked(chain, powers, key, i)
    ensures Seek(chain, powers, key, 0) == Seek(chain, powers, key, i)
  {
    hide ProbeFrom;
    if i > 0 {
      WalkedSkips(chain, powers, key, i - 1);
      assert Passes(chain, powers, key, i - 1);
    }
  }

  function WithSlot<P>(chain: Chain<P>, level: nat, slot: nat, used: Slot<P>): Chain<P>
    requires level < |chain| && slot < |chain[level].slots|
  {
    chain[level := chain[level].(slots := chain[level].slots[slot := used])]
  }

  lemma InsertIsLawful<P>(before: Chain<P>, mid: Chain<P>, powers: seq<nat>, key: Key, level: nat, slot: nat,
      payload: P)
    requires Chosen(before, mid, powers, key, level, slot)
    ensures var after := WithSlot(mid, level, slot, Used(key, payload));
            && Shaped(after, powers) && Routed(after) && ChainGrows(before, after)
            && Seek(after, powers, key, 0) == At(level, slot)
  {
    hide ProbeFrom, Seek;
    var after := WithSlot(mid, level, slot, Used(key, payload));
    InsertIsFound(mid, powers, key, level, 0, slot, payload, mid[level].count, mid[level].sealed);
    forall i | 0 < i < |after| && (after[i].sealed || HoldsKeys(after[i])) ensures after[i - 1].sealed {
      if i != level && HoldsKeys(after[i]) { assert HoldsKeys(mid[i]); }
    }
  }

  lemma InsertKeepsReachable<P>(before: Chain<P>, mid: Chain<P>, powers: seq<nat>, key: Key, level: nat, slot: nat,
      payload: P)
    requires Chosen(before, mid, powers, key, level, slot) && Clean(before, powers)
    ensures var after := WithSlot(mid, level, slot, Used(key, payload));
            && Shaped(after, powers)
            && Reachable(after, powers)
            && forall other: Key :: other != key ==> Seek(after, powers, other, 0) == Seek(before, powers, other, 0)
  {
    var after := WithSlot(mid, level, slot, Used(key, payload));
    InsertIsLawful(before, mid, powers, key, level, slot, payload);
    forall i, s | 0 <= i < |after| && 0 <= s < |after[i].slots| && after[i].slots[s].Used?
      ensures Seek(after, powers, after[i].slots[s].key, 0) == At(i, s)
      ensures (i, s) != (level, slot) ==> Seek(before, powers, after[i].slots[s].key, 0) == At(i, s)
    {
      if (i, s) != (level, slot) {
        assert mid[i].slots[s] == after[i].slots[s];
        assert HoldsKeys(mid[i]);
        SeekIsStable(before, after, powers, before[i].slots[s].key, 0);
      }
    }
    forall other: Key | other != key ensures Seek(after, powers, other, 0) == Seek(before, powers, other, 0) {
      if Seek(before, powers, other, 0).At? { SeekIsStable(before, after, powers, other, 0); }
    }
  }

  /** On an uncrashed chain an insertion answers for its own key and changes no other answer. */
  lemma InsertIsExact<P>(before: Chain<P>, mid: Chain<P>, powers: seq<nat>, key: Key, level: nat, slot: nat, payload: P)
    requires Chosen(before, mid, powers, key, level, slot)
    requires Clean(before, powers)
    requires WithinLoad(mid, powers)
    requires |Occupied(mid[level].slots)| < mid[level].count
    ensures var after := WithSlot(mid, level, slot, Used(key, payload));
            && Shaped(after, powers) && Clean(after, powers)
            && forall other: Key :: other != key ==> Seek(after, powers, other, 0) == Seek(before, powers, other, 0)
  {
    InsertKeepsReachable(before, mid, powers, key, level, slot, payload);
    OccupyOne(mid[level].slots, slot, key, payload);
  }

  // ----- what a write changes in a chain a crash may have touched -----

  /** The reader's walk for `key` ends at this free slot. */
  ghost predicate StopsAt<P>(chain: Chain<P>, powers: seq<nat>, key: Key, level: nat, slot: nat)
    requires Shaped(chain, powers)
  {
    && level < |chain| && !chain[level].sealed && ProbeSlots(chain[level].slots, key, powers[level]) == Free(slot)
    && forall j :: 0 <= j < level ==> Passes(chain, powers, key, j)
  }

  /** The key lies further along its own probe path, with nothing but `slot` free before it. */
  ghost predicate Behind<P>(slots: seq<Slot<P>>, key: Key, p: nat, slot: nat)
    requires Fits(slots, p) && slot < |slots|
  {
    exists c, d :: 0 <= c < d < Pow2(p) && SlotAt(key, p, c) == slot && BehindAt(slots, key, p, c, d)
  }

  ghost predicate BehindAt<P>(slots: seq<Slot<P>>, key: Key, p: nat, c: nat, d: nat)
    requires Fits(slots, p) && c < d < Pow2(p)
  {
    && slots[SlotAt(key, p, d)].Used? && slots[SlotAt(key, p, d)].key == key
    && forall e :: 0 <= e < d && e != c ==> slots[SlotAt(key, p, e)].Used? && slots[SlotAt(key, p, e)].key != key
  }

  /** Filling a slot the probe does not stop at leaves the probe alone. */
  lemma {:induction false} FillElsewhere<P>(slots: seq<Slot<P>>, key: Key, p: nat, c: nat, slot: nat, used: Slot<P>)
    requires Fits(slots, p) && c <= Pow2(p) && slot < |slots| && slots[slot].Vacant? && used.Used? && used.key != key
    requires ProbeFrom(slots, key, p, c) != Free(slot)
    ensures ProbeFrom(slots[slot := used], key, p, c) == ProbeFrom(slots, key, p, c)
    decreases Pow2(p) - c
  {
    if c < Pow2(p) && slots[SlotAt(key, p, c)].Used? && slots[SlotAt(key, p, c)].key != key {
      FillElsewhere(slots, key, p, c + 1, slot, used);
    }
  }

  /** The turn at which a probe stops at a free slot. */
  lemma {:induction false} FreeTurn<P>(slots: seq<Slot<P>>, key: Key, p: nat, c: nat) returns (turn: nat)
    requires Fits(slots, p) && c <= Pow2(p) && ProbeFrom(slots, key, p, c).Free?
    ensures c <= turn < Pow2(p) && ProbeFrom(slots, key, p, c) == Free(SlotAt(key, p, turn))
    ensures forall e :: c <= e < turn ==> slots[SlotAt(key, p, e)].Used? && slots[SlotAt(key, p, e)].key != key
    decreases Pow2(p) - c
  {
    if slots[SlotAt(key, p, c)].Vacant? { return c; }
    turn := FreeTurn(slots, key, p, c + 1);
  }

  lemma {:induction false} FoundTurn<P>(slots: seq<Slot<P>>, key: Key, p: nat, c: nat) returns (turn: nat)
    requires Fits(slots, p) && c <= Pow2(p) && ProbeFrom(slots, key, p, c).Found?
    ensures c <= turn < Pow2(p) && slots[SlotAt(key, p, turn)].Used? && slots[SlotAt(key, p, turn)].key == key
    ensures forall e :: c <= e < turn ==> slots[SlotAt(key, p, e)].Used? && slots[SlotAt(key, p, e)].key != key
    decreases Pow2(p) - c
  {
    if slots[SlotAt(key, p, c)].Used? && slots[SlotAt(key, p, c)].key == key { return c; }
    turn := FoundTurn(slots, key, p, c + 1);
  }

  lemma {:induction false} ProbeReaches<P>(slots: seq<Slot<P>>, key: Key, p: nat, c: nat, d: nat)
    requires Fits(slots, p) && c <= d < Pow2(p)
    requires slots[SlotAt(key, p, d)].Used? && slots[SlotAt(key, p, d)].key == key
    requires forall e :: c <= e < d ==> slots[SlotAt(key, p, e)].Used? && slots[SlotAt(key, p, e)].key != key
    ensures ProbeFrom(slots, key, p, c).Found?
    decreases d - c
  {
    if c < d { ProbeReaches(slots, key, p, c + 1, d); }
  }

  /** Once another key takes the slot a probe stopped at, the probe finds its key exactly if it lies behind. */
  lemma FillReveals<P>(slots: seq<Slot<P>>, key: Key, p: nat, slot: nat, used: Slot<P>)
    requires Fits(slots, p) && ProbeSlots(slots, key, p) == Free(slot) && slot < |slots| && used.Used?
             && used.key != key
    ensures ProbeSlots(slots[slot := used], key, p).Found? <==> Behind(slots, key, p, slot)
  {
    hide ProbeFrom;
    var after := slots[slot := used];
    var c := FreeTurn(slots, key, p, 0);
    if ProbeSlots(after, key, p).Found? {
      var d := FoundTurn(after, key, p, 0);
      assert slots[SlotAt(key, p, d)] == after[SlotAt(key, p, d)];
      assert d > c;
      forall e | 0 <= e < d && e != c ensures slots[SlotAt(key, p, e)].Used? && slots[SlotAt(key, p, e)].key != key {
        OtherTurn(key, p, e, c);
      }
      assert BehindAt(slots, key, p, c, d);
    }
    if Behind(slots, key, p, slot) {
      var b, d :| 0 <= b < d < Pow2(p) && SlotAt(key, p, b) == slot && BehindAt(slots, key, p, b, d);
      forall e | 0 <= e < d ensures after[SlotAt(key, p, e)].Used? && after[SlotAt(key, p, e)].key != key {
        if e != b { OtherTurn(key, p, e, b); }
      }
      OtherTurn(key, p, d, b);
      ProbeReaches(after, key, p, 0, d);
    }
  }

  lemma OtherTurn(key: Key, p: nat, i: nat, j: nat)
    requires p >= 1 && i < Pow2(p) && j < Pow2(p) && i != j
    ensures SlotAt(key, p, i) != SlotAt(key, p, j)
  {
    if i < j { ProbeInjective(key, p, i, j); } else { ProbeInjective(key, p, j, i); }
  }

  lemma {:induction false} FilledSeek<P>(mid: Chain<P>, powers: seq<nat>, key: Key, level: nat, slot: nat,
      used: Slot<P>, i: nat)
    requires Shaped(mid, powers) && level < |mid| && slot < |mid[level].slots| && mid[level].slots[slot].Vacant?
    requires used.Used? && used.key != key && forall j :: level < j < |mid| ==> !HoldsKeys(mid[j])
    requires i <= level && Seek(mid, powers, key, i) == Nowhere
    ensures Shaped(WithSlot(mid, level, slot, used), powers)
    ensures Seek(WithSlot(mid, level, slot, used), powers, key, i).At? <==>
              && (forall j :: i <= j < level ==> Passes(mid, powers, key, j))
              && ProbeSlots(mid[level].slots, key, powers[level]) == Free(slot)
              && Behind(mid[level].slots, key, powers[level], slot)
    decreases level - i
  {
    hide ProbeFrom, Behind;
    var after := WithSlot(mid, level, slot, used);
    if i == level {
      forall j | level < j < |after| ensures !HoldsKeys(after[j]) { assert after[j] == mid[j]; }
      NoKeysNowhere(after, powers, key, level + 1);
      if ProbeSlots(mid[level].slots, key, powers[level]) == Free(slot) {
        FillReveals(mid[level].slots, key, powers[level], slot, used);
      } else {
        FillElsewhere(mid[level].slots, key, powers[level], 0, slot, used);
      }
    } else {
      assert after[i] == mid[i];
      if Passes(mid, powers, key, i) { FilledSeek(mid, powers, key, level, slot, used, i + 1); }
    }
  }

  /**
   Over any chain, crashed or not: a put changes the answer for another key if and only if that key's walk stops
   at the very slot the put fills and the key lies behind it.
   */
  lemma InsertChangesIff<P>(before: Chain<P>, mid: Chain<P>, powers: seq<nat>, key: Key, level: nat, slot: nat,
      payload: P, other: Key)
    requires Chosen(before, mid, powers, key, level, slot) && other != key
    ensures Shaped(WithSlot(mid, level, slot, Used(key, payload)), powers)
    ensures Seek(WithSlot(mid, level, slot, Used(key, payload)), powers, other, 0) != Seek(before, powers, other,
              0) <==>
              StopsAt(before, powers, other, level, slot) && Behind(before[level].slots, other, powers[level], slot)
  {
    hide ProbeFrom, Behind, Seek;
    var used := Used(key, payload);
    ResealKeepsSeek(before, mid, powers, other, 0);
    InsertIsLawful(before, mid, powers, key, level, slot, payload);
    NoKeysAbove(before, mid, powers, key, level, slot);
    if Seek(before, powers, other, 0).At? {
      SeekIsStable(before, WithSlot(mid, level, slot, used), powers, other, 0);
      if StopsAt(before, powers, other, level, slot) { StoppedIsNowhere(before, powers, other, level, slot, 0); }
    } else {
      FilledSeek(mid, powers, other, level, slot, used, 0);
      SameStop(before, mid, powers, key, level, slot, other);
    }
  }

  lemma {:induction false} StoppedIsNowhere<P>(chain: Chain<P>, powers: seq<nat>, key: Key, level: nat, slot: nat,
      i: nat)
    requires Shaped(chain, powers) && i <= level && StopsAt(chain, powers, key, level, slot)
    ensures Seek(chain, powers, key, i) == Nowhere
    decreases level - i
  {
    hide ProbeFrom;
    if i < level {
      assert Passes(chain, powers, key, i);
      StoppedIsNowhere(chain, powers, key, level, slot, i + 1);
    }
  }

  lemma NoKeysAbove<P>(before: Chain<P>, mid: Chain<P>, powers: seq<nat>, key: Key, level: nat, slot: nat)
    requires Chosen(before, mid, powers, key, level, slot)
    ensures forall j :: level < j < |mid| ==> !HoldsKeys(mid[j])
  {
    hide ProbeFrom;
    forall j | level < j < |mid| ensures !HoldsKeys(mid[j]) {
      if j < |before| && HoldsKeys(mid[j]) {
        assert HoldsKeys(before[j]);
        EarlierLevelsSealed(before, j, level);
      }
    }
  }

  lemma SameStop<P>(before: Chain<P>, mid: Chain<P>, powers: seq<nat>, key: Key, level: nat, slot: nat, other: Key)
    requires Chosen(before, mid, powers, key, level, slot)
    ensures StopsAt(before, powers, other, level, slot) && Behind(before[level].slots, other, powers[level], slot) <==>
              && (forall j :: 0 <= j < level ==> Passes(mid, powers, other, j))
              && ProbeSlots(mid[level].slots, other, powers[level]) == Free(slot)
              && Behind(mid[level].slots, other, powers[level], slot)
  {
    hide ProbeFrom;
    if StopsAt(before, powers, other, level, slot) {
      forall j | 0 <= j < level ensures Passes(mid, powers, other, j) { assert Passes(before, powers, other, j); }
    }
    if Behind(mid[level].slots, other, powers[level], slot)
       && forall j :: 0 <= j < level ==> Passes(mid, powers, other, j) {
      assert HoldsKeys(mid[level]);
      assert level < |before| && HoldsKeys(before[level]);
      forall j | 0 <= j < level ensures Passes(before, powers, other, j) {
        EarlierLevelsSealed(before, level, j);
        assert Passes(mid, powers, other, j);
      }
    }
  }

  // ----- a slot lost to a crash hides the ones behind it -----

  /** Keys that share one probe path. */
  function Low(n: Byte): (key: Key)
    requires n > 0
    ensures key[31] == n && forall i :: 0 <= i < 31 ==> key[i] == 0
  {
    var bytes: seq<Byte> := seq(32, i => if i == 31 then n else 0);
    assert bytes[31] != 0;
    bytes
  }

  lemma {:induction false} ZeroBytes(bytes: seq<Byte>)
    requires forall i :: 0 <= i < |bytes| ==> bytes[i] == 0
    ensures LittleEndian(bytes) == 0
  {
    if bytes != [] { ZeroBytes(bytes[1..]); }
  }

  lemma LowProbe(n: Byte, c: nat)
    requires n > 0 && c < 8
    ensures Pow2(3) == 8 && SlotAt(Low(n), 3, c) == c
  {
    assert Pow2(0) == 1 && Pow2(1) == 2 && Pow2(2) == 4;
    ZeroBytes(Low(n)[1..9]);
    ZeroBytes(Low(n)[9..17]);
  }

  /** A table of eight slots in which only the second slot of a path is taken. */
  function SecondOnly<P>(b: P): (chain: Chain<P>) {
    [Segment([Vacant, Used(Low(2), b), Vacant, Vacant, Vacant, Vacant, Vacant, Vacant], 0, false)]
  }

  lemma HoleProbe<P>(slots: seq<Slot<P>>, b: P)
    requires slots == SecondOnly(b)[0].slots
    ensures Fits(slots, 3) && ProbeSlots(slots, Low(2), 3) == Free(0) && Behind(slots, Low(2), 3, 0)
  {
    hide Low, Pow2, SlotAt;
    LowProbe(2, 0);
    LowProbe(2, 1);
    assert BehindAt(slots, Low(2), 3, 0, 1);
  }

  /** The key behind the hole is not found; once another key fills the hole, it is. */
  lemma HoleHides<P>(b: P, c: P)
    ensures Shaped(SecondOnly(b), [3]) && Seek(SecondOnly(b), [3], Low(2), 0) == Nowhere
    ensures var after := WithSlot(SecondOnly(b), 0, 0, Used(Low(3), c));
            Shaped(after, [3]) && Seek(after, [3], Low(2), 0) == At(0, 1)
  {
    hide ProbeFrom, Behind, Pow2, SlotAt;
    var chain, after := SecondOnly(b), WithSlot(SecondOnly(b), 0, 0, Used(Low(3), c));
    LowProbe(2, 0);
    assert Low(3)[31] != Low(2)[31];
    HoleProbe(chain[0].slots, b);
    FillReveals(chain[0].slots, Low(2), 3, 0, Used(Low(3), c));
    assert after[0].slots == chain[0].slots[0 := Used(Low(3), c)];
  }
}
