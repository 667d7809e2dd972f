/**
 The walk a put makes down the level chain of one prefix, as a function of the chain, and the room a chain has left:
 when the walk finds no place, and what each placement costs.
 */
module LevelWalk {
  import opened LeveledTable

  datatype Selection = Existing(level: nat, slot: nat) | Open(level: nat, slot: nat) | NoRoom

  /** The chain as the walk leaves it, and where the walk ended. */
  datatype Route<+P> = Route(chain: Chain<P>, selection: Selection)

  ghost predicate Usable(powers: seq<nat>) {
    forall i :: 0 <= i < |powers| ==> powers[i] >= 1
  }

  ghost predicate LawfulStates<P>(chain: Chain<P>, powers: seq<nat>)
    requires |chain| <= |powers|
  {
    forall i :: 0 <= i < |chain| ==>
      chain[i].count <= Pow2(powers[i]) && (!chain[i].sealed ==> chain[i].count < Threshold(powers[i]))
  }

  ghost predicate Orderly<P>(chain: Chain<P>, powers: seq<nat>) {
    Shaped(chain, powers) && Routed(chain) && LawfulStates(chain, powers)
  }

  function Fresh<P>(p: nat): (segment: Segment<P>)
    ensures |segment.slots| == Pow2(p) && !HoldsKeys(segment)
  {
    Segment(seq(Pow2(p), _ => Vacant), 0, false)
  }

  function WithState<P>(chain: Chain<P>, i: nat, count: nat, sealed: bool): Chain<P>
    requires i < |chain|
  {
    chain[i := chain[i].(count := count, sealed := sealed)]
  }

  /** The level the walk is at exists from then on. */
  function WithLevel<P>(chain: Chain<P>, powers: seq<nat>, i: nat): (longer: Chain<P>)
    requires i < |powers| && i <= |chain|
    ensures i < |longer|
  {
    if i < |chain| then chain else chain + [Fresh(powers[i])]
  }

  /**
   From level `i` on: the key is here, or the level is full and gets closed, or it is closed already, or it takes
   the key, counts it and is closed at its threshold.
   */
  ghost function Walk<P>(chain: Chain<P>, powers: seq<nat>, key: Key, i: nat): Route<P>
    requires Shaped(chain, powers) && Usable(powers) && i <= |chain|
    decreases |powers| - i
  {
    if i >= |powers| then Route(chain, NoRoom)
    else
      var now := WithLevel(chain, powers, i);
      match ProbeSlots(now[i].slots, key, powers[i])
      case Found(slot) => Route(now, Existing(i, slot))
      case Full => Walk(WithState(now, i, Pow2(powers[i]), true), powers, key, i + 1)
      case Free(slot) =>
        if now[i].sealed then Walk(now, powers, key, i + 1)
        else
          var count := now[i].count + 1;
          Route(WithState(now, i, count, count >= Threshold(powers[i])), Open(i, slot))
  }

  /** One level of the walk: with what the probe found there, it goes from `before` to `after` or ends in it. */
  ghost predicate StepsTo<P>(before: Chain<P>, after: Chain<P>, powers: seq<nat>, key: Key, i: nat, probe: Probe,
      takes: bool) {
    && Shaped(before, powers) && Shaped(after, powers) && Usable(powers) && i <= |before| && i < |after|
    && Walk(before, powers, key, i) ==
         if probe.Found? then Route(after, Existing(i, probe.slot))
         else if probe.Free? && takes then Route(after, Open(i, probe.slot))
         else Walk(after, powers, key, i + 1)
  }

  lemma VisitSteps<P>(before: Chain<P>, now: Chain<P>, after: Chain<P>, powers: seq<nat>, key: Key, i: nat,
      probe: Probe, takes: bool)
    requires Shaped(before, powers) && Usable(powers) && i <= |before| && i < |powers|
    requires now == WithLevel(before, powers, i) && probe == ProbeSlots(now[i].slots, key, powers[i])
    requires takes <==> probe.Free? && !now[i].sealed
    requires after ==
               if probe.Full? then WithState(now, i, Pow2(powers[i]), true)
               else if takes then WithState(now, i, now[i].count + 1, now[i].count + 1 >= Threshold(powers[i]))
               else now
    ensures StepsTo(before, after, powers, key, i, probe, takes)
  {
    hide ProbeFrom, Pow2, Threshold;
  }

  // ----- what the walk keeps -----

  lemma FreshIsFree<P>(key: Key, p: nat)
    requires p >= 1
    ensures Fits(Fresh<P>(p).slots, p) && ProbeSlots(Fresh<P>(p).slots, key, p) == Free(SlotAt(key, p, 0))
  {
  }

  lemma WithLevelKeeps<P>(chain: Chain<P>, powers: seq<nat>, i: nat)
    requires Orderly(chain, powers) && Usable(powers) && i < |powers| && i <= |chain|
    ensures Orderly(WithLevel(chain, powers, i), powers) && Resealed(chain, WithLevel(chain, powers, i))
  {
    var now := WithLevel(chain, powers, i);
    ThresholdLeavesRoom(powers[i]);
    forall j | 0 < j < |now| && (now[j].sealed || HoldsKeys(now[j])) ensures now[j - 1].sealed {
      assert j < |chain| && now[j] == chain[j];
    }
  }

  lemma WithStateKeeps<P>(chain: Chain<P>, powers: seq<nat>, i: nat, count: nat, sealed: bool)
    requires Orderly(chain, powers) && i < |chain| && (chain[i].sealed ==> sealed) && count <= Pow2(powers[i])
    requires !sealed ==> count < Threshold(powers[i])
    requires sealed && i > 0 ==> chain[i - 1].sealed
    ensures Orderly(WithState(chain, i, count, sealed), powers) && Resealed(chain, WithState(chain, i, count, sealed))
  {
    var now := WithState(chain, i, count, sealed);
    forall j | 0 < j < |now| && (now[j].sealed || HoldsKeys(now[j])) ensures now[j - 1].sealed {
      if HoldsKeys(now[j]) { assert HoldsKeys(chain[j]); }
    }
  }

  /** One level passed: it exists and is closed, and nothing but states changed. */
  ghost predicate PassedOn<P>(chain: Chain<P>, next: Chain<P>, powers: seq<nat>, key: Key, i: nat) {
    && Shaped(chain, powers) && Orderly(next, powers) && Resealed(chain, next) && i < |next|
    && Walked(next, powers, key, i + 1)
    && |next| == (if i < |chain| then |chain| else i + 1)
    && (i < |chain| ==> Passes(chain, powers, key, i))
    && (forall j :: i < j < |chain| ==> next[j] == chain[j])
  }

  lemma PassLevel<P>(chain: Chain<P>, next: Chain<P>, powers: seq<nat>, key: Key, i: nat)
    requires Orderly(chain, powers) && Usable(powers) && i < |powers| && Walked(chain, powers, key, i)
    requires var now := WithLevel(chain, powers, i);
             && Shaped(now, powers)
             && var probe := ProbeSlots(now[i].slots, key, powers[i]);
                || (probe.Full? && next == WithState(now, i, Pow2(powers[i]), true))
                || (probe.Free? && now[i].sealed && next == now)
    ensures PassedOn(chain, next, powers, key, i)
  {
    hide ProbeFrom, HoldsKeys;
    var now := WithLevel(chain, powers, i);
    WithLevelKeeps(chain, powers, i);
    WalkedStays(chain, now, powers, key, i);
    if ProbeSlots(now[i].slots, key, powers[i]).Full? {
      WithStateKeeps(now, powers, i, Pow2(powers[i]), true);
      ResealedTransitive(chain, now, next);
      WalkedStays(now, next, powers, key, i);
    }
    WalkedFurther(next, powers, key, i);
  }

  /** What a walk that starts at level `i` with the levels before it closed leaves, wherever it ends. */
  ghost predicate WalkLeaves<P>(chain: Chain<P>, powers: seq<nat>, key: Key, i: nat, route: Route<P>) {
    && Shaped(chain, powers) && Orderly(route.chain, powers) && Resealed(chain, route.chain)
    && match route.selection
       case Existing(level, slot) => Seek(chain, powers, key, i) == At(level, slot)
       case NoRoom => Seek(chain, powers, key, i) == Nowhere
       case Open(level, slot) =>
         && Seek(chain, powers, key, i) == Nowhere
         && i <= level < |route.chain| && (level < |chain| ==> !chain[level].sealed)
         && ProbeSlots(route.chain[level].slots, key, powers[level]) == Free(slot)
         && Walked(route.chain, powers, key, level)
  }

  lemma {:induction false} WalkKeeps<P>(chain: Chain<P>, powers: seq<nat>, key: Key, i: nat)
    requires Orderly(chain, powers) && Usable(powers) && Walked(chain, powers, key, i)
    ensures WalkLeaves(chain, powers, key, i, Walk(chain, powers, key, i))
    decreases |powers| - i
  {
    hide ProbeFrom, HoldsKeys, Routed, LawfulStates;
    if i < |powers| {
      var now := WithLevel(chain, powers, i);
      WithLevelKeeps(chain, powers, i);
      FreshIsFree<P>(key, powers[i]);
      var probe := ProbeSlots(now[i].slots, key, powers[i]);
      if probe.Found? {
      } else if probe.Full? || now[i].sealed {
        var next := if probe.Full? then WithState(now, i, Pow2(powers[i]), true) else now;
        PassLevel(chain, next, powers, key, i);
        WalkKeeps(next, powers, key, i + 1);
        PassedLeaves(chain, next, powers, key, i, Walk(next, powers, key, i + 1));
      } else {
        TakeLevel(chain, powers, key, i);
      }
    } else {
      assert Seek(chain, powers, key, i) == Nowhere;
      SelfResealed(chain);
    }
  }

  lemma SelfResealed<P>(chain: Chain<P>)
    ensures Resealed(chain, chain)
  {
  }

  /** The walk ends at an open level. */
  lemma TakeLevel<P>(chain: Chain<P>, powers: seq<nat>, key: Key, i: nat)
    requires Orderly(chain, powers) && Usable(powers) && i < |powers| && Walked(chain, powers, key, i)
    requires var now := WithLevel(chain, powers, i);
             Shaped(now, powers) && ProbeSlots(now[i].slots, key, powers[i]).Free? && !now[i].sealed
    ensures WalkLeaves(chain, powers, key, i, Walk(chain, powers, key, i))
  {
    hide ProbeFrom, HoldsKeys, Routed, Resealed, Walked, Pow2, Threshold;
    var now := WithLevel(chain, powers, i);
    TakenLevel(chain, powers, key, i);
  }

  lemma TakenLevel<P>(chain: Chain<P>, powers: seq<nat>, key: Key, i: nat)
    requires Orderly(chain, powers) && Usable(powers) && i < |powers| && Walked(chain, powers, key, i)
    requires !WithLevel(chain, powers, i)[i].sealed
    ensures var now := WithLevel(chain, powers, i);
            var count := now[i].count + 1;
            var after := WithState(now, i, count, count >= Threshold(powers[i]));
            && Orderly(after, powers) && Resealed(chain, after) && Walked(after, powers, key, i)
  {
    hide ProbeFrom, HoldsKeys, Routed, Resealed, Passes;
    var now := WithLevel(chain, powers, i);
    var count := now[i].count + 1;
    var after := WithState(now, i, count, count >= Threshold(powers[i]));
    WithLevelKeeps(chain, powers, i);
    WalkedStays(chain, now, powers, key, i);
    ThresholdLeavesRoom(powers[i]);
    LastIsClosed(now, powers, key, i);
    WithStateKeeps(now, powers, i, count, count >= Threshold(powers[i]));
    ResealedTransitive(chain, now, after);
    WalkedStays(now, after, powers, key, i);
  }

  lemma LastIsClosed<P>(chain: Chain<P>, powers: seq<nat>, key: Key, i: nat)
    requires Shaped(chain, powers) && Walked(chain, powers, key, i)
    ensures i > 0 ==> i <= |chain| && chain[i - 1].sealed
  {
  }

  lemma PassedLeaves<P>(chain: Chain<P>, next: Chain<P>, powers: seq<nat>, key: Key, i: nat, route: Route<P>)
    requires PassedOn(chain, next, powers, key, i) && WalkLeaves(next, powers, key, i + 1, route)
    requires i <= |chain|
    ensures WalkLeaves(chain, powers, key, i, route)
  {
    hide ProbeFrom, HoldsKeys, Routed, LawfulStates;
    ResealedTransitive(chain, next, route.chain);
    SeekPasses(chain, next, powers, key, i);
  }

  /** The reader's walk passes where the put's walk does. */
  lemma SeekPasses<P>(chain: Chain<P>, next: Chain<P>, powers: seq<nat>, key: Key, i: nat)
    requires PassedOn(chain, next, powers, key, i) && i <= |chain|
    ensures Seek(chain, powers, key, i) == Seek(next, powers, key, i + 1)
  {
    hide ProbeFrom, HoldsKeys, LawfulStates;
    if i < |chain| { SameAbove(chain, next, powers, key, i + 1); }
  }

  lemma {:induction false} SameAbove<P>(a: Chain<P>, b: Chain<P>, powers: seq<nat>, key: Key, i: nat)
    requires Shaped(a, powers) && Shaped(b, powers) && |a| == |b|
    requires forall j :: i <= j < |a| ==> a[j] == b[j]
    ensures Seek(a, powers, key, i) == Seek(b, powers, key, i)
    decreases |a| - i
  {
    hide ProbeSlots, Pow2;
    if i < |a| { SameAbove(a, b, powers, key, i + 1); }
  }

  /** Every level is there, and each is full or closed for the key. */
  ghost predicate NoPlace<P>(chain: Chain<P>, powers: seq<nat>, key: Key, i: nat)
    requires Shaped(chain, powers)
  {
    |chain| == |powers| && forall j :: i <= j < |chain| ==> Passes(chain, powers, key, j)
  }

  /** A put finds no room exactly when no level has any for the key. */
  lemma {:induction false} NoRoomIff<P>(chain: Chain<P>, powers: seq<nat>, key: Key, i: nat)
    requires Orderly(chain, powers) && Usable(powers) && Walked(chain, powers, key, i)
    ensures Walk(chain, powers, key, i).selection.NoRoom? <==> NoPlace(chain, powers, key, i)
    decreases |powers| - i
  {
    hide ProbeFrom, HoldsKeys, Routed, LawfulStates;
    if i < |powers| {
      var now := WithLevel(chain, powers, i);
      WithLevelKeeps(chain, powers, i);
      FreshIsFree<P>(key, powers[i]);
      var probe := ProbeSlots(now[i].slots, key, powers[i]);
      if probe.Full? || (probe.Free? && now[i].sealed) {
        var next := if probe.Full? then WithState(now, i, Pow2(powers[i]), true) else now;
        PassLevel(chain, next, powers, key, i);
        NoRoomIff(next, powers, key, i + 1);
        PassedNoPlace(chain, next, powers, key, i);
      } else {
        assert i < |chain| ==> !Passes(chain, powers, key, i);
      }
    }
  }

  lemma PassedNoPlace<P>(chain: Chain<P>, next: Chain<P>, powers: seq<nat>, key: Key, i: nat)
    requires PassedOn(chain, next, powers, key, i) && i < |chain|
    ensures NoPlace(next, powers, key, i + 1) <==> NoPlace(chain, powers, key, i)
  {
    hide ProbeFrom, HoldsKeys, Routed, LawfulStates;
    if NoPlace(next, powers, key, i + 1) {
      forall j | i <= j < |chain| ensures Passes(chain, powers, key, j) {
        if i < j { assert Passes(next, powers, key, j); }
      }
    }
    if NoPlace(chain, powers, key, i) {
      forall j | i + 1 <= j < |next| ensures Passes(next, powers, key, j) { assert Passes(chain, powers, key, j); }
    }
  }

  // ----- room -----

  /** How many more keys a level can take before it is closed or full. */
  ghost function LevelRoom<P>(chain: Chain<P>, powers: seq<nat>, i: nat): nat
    requires i < |powers|
  {
    if i >= |chain| then Threshold(powers[i])
    else if chain[i].sealed || chain[i].count >= Threshold(powers[i]) then 0
    else Smaller(Threshold(powers[i]) - chain[i].count, Vacancies(chain[i].slots))
  }

  function Smaller(a: nat, b: nat): nat { if a <= b then a else b }

  ghost function Vacancies<P>(slots: seq<Slot<P>>): nat {
    OccupiedBound(slots);
    |slots| - |Occupied(slots)|
  }

  lemma OccupiedBound<P>(slots: seq<Slot<P>>)
    ensures |Occupied(slots)| <= |slots|
    ensures |Occupied(slots)| == |slots| ==> forall s :: 0 <= s < |slots| ==> slots[s].Used?
  {
    BoundedSetSize(Occupied(slots), |slots|);
    if |Occupied(slots)| == |slots| {
      forall s | 0 <= s < |slots| ensures slots[s].Used? { assert s in Occupied(slots); }
    }
  }

  /** The room of the first `n` levels. */
  ghost function Room<P>(chain: Chain<P>, powers: seq<nat>, n: nat): nat
    requires n <= |powers|
  {
    if n == 0 then 0 else Room(chain, powers, n - 1) + LevelRoom(chain, powers, n - 1)
  }

  lemma FullHasNone<P>(slots: seq<Slot<P>>, key: Key, p: nat)
    requires Fits(slots, p) && ProbeSlots(slots, key, p).Full?
    ensures Vacancies(slots) == 0
  {
    hide ProbeFrom;
    FullMeansFull(slots, key, p);
    OccupiedBound(slots);
    VisitedCount(key, p, Pow2(p));
    assert Visited(key, p, Pow2(p)) <= Occupied(slots);
    SubsetSize(Visited(key, p, Pow2(p)), Occupied(slots));
  }

  lemma FreeHasOne<P>(slots: seq<Slot<P>>, key: Key, p: nat)
    requires Fits(slots, p) && ProbeSlots(slots, key, p).Free?
    ensures Vacancies(slots) >= 1
  {
    hide ProbeFrom;
    OccupiedBound(slots);
    assert slots[ProbeSlots(slots, key, p).slot].Vacant?;
  }

  lemma FreshRoom<P>(p: nat)
    requires p >= 1
    ensures Vacancies(Fresh<P>(p).slots) == Pow2(p)
  {
    assert Occupied(Fresh<P>(p).slots) == {};
  }

  /** The rooms of all levels but one agree, and that one differs by `fewer`. */
  lemma {:induction false} RoomDiffers<P>(a: Chain<P>, b: Chain<P>, powers: seq<nat>, n: nat, at: nat, fewer: nat)
    requires n <= |powers|
    requires forall j: nat :: j < n && j != at ==> LevelRoom(b, powers, j) == LevelRoom(a, powers, j)
    requires at < n ==> LevelRoom(a, powers, at) == LevelRoom(b, powers, at) + fewer
    ensures Room(a, powers, n) == Room(b, powers, n) + if at < n then fewer else 0
  {
    hide LevelRoom;
    if n > 0 { RoomDiffers(a, b, powers, n - 1, at, fewer); }
  }

  lemma {:induction false} NoLevelHasRoom<P>(chain: Chain<P>, powers: seq<nat>, n: nat)
    requires n <= |powers|
    ensures Room(chain, powers, n) == 0 <==> forall j: nat :: j < n ==> LevelRoom(chain, powers, j) == 0
  {
    hide LevelRoom;
    if n > 0 { NoLevelHasRoom(chain, powers, n - 1); }
  }

  /** For a key that is not stored: a level is passed exactly when it has no room at all. */
  lemma PassesIff<P>(chain: Chain<P>, powers: seq<nat>, key: Key, i: nat)
    requires Orderly(chain, powers) && i < |chain| && !ProbeSlots(chain[i].slots, key, powers[i]).Found?
    ensures Passes(chain, powers, key, i) <==> LevelRoom(chain, powers, i) == 0
  {
    hide ProbeFrom, HoldsKeys, Routed, Vacancies;
    match ProbeSlots(chain[i].slots, key, powers[i])
    case Full => FullHasNone(chain[i].slots, key, powers[i]);
    case Free(_) => FreeHasOne(chain[i].slots, key, powers[i]);
  }

  lemma {:induction false} NotFoundAnywhere<P>(chain: Chain<P>, powers: seq<nat>, key: Key, i: nat, j: nat)
    requires Shaped(chain, powers) && i <= j < |chain| && Seek(chain, powers, key, i) == Nowhere
    requires forall k :: i <= k < j ==> Passes(chain, powers, key, k)
    ensures !ProbeSlots(chain[j].slots, key, powers[j]).Found?
    decreases j - i
  {
    hide ProbeFrom;
    if i < j {
      assert Passes(chain, powers, key, i);
      NotFoundAnywhere(chain, powers, key, i + 1, j);
    }
  }

  /** For a key that is not stored, there is no place exactly when the chain has no room. */
  lemma NoPlaceIff<P>(chain: Chain<P>, powers: seq<nat>, key: Key)
    requires Orderly(chain, powers) && Usable(powers) && Seek(chain, powers, key, 0) == Nowhere
    ensures NoPlace(chain, powers, key, 0) <==> Room(chain, powers, |powers|) == 0
  {
    hide LevelRoom, Seek, ProbeFrom, Routed, LawfulStates;
    NoLevelHasRoom(chain, powers, |powers|);
    if NoPlace(chain, powers, key, 0) {
      forall j: nat | j < |powers| ensures LevelRoom(chain, powers, j) == 0 {
        NotFoundAnywhere(chain, powers, key, 0, j);
        PassesIff(chain, powers, key, j);
      }
    }
    if forall j: nat :: j < |powers| ==> LevelRoom(chain, powers, j) == 0 {
      AllThere(chain, powers);
      AllPassed(chain, powers, key, |chain|);
    }
  }

  lemma AllThere<P>(chain: Chain<P>, powers: seq<nat>)
    requires Orderly(chain, powers) && forall j: nat :: j < |powers| ==> LevelRoom(chain, powers, j) == 0
    ensures |chain| == |powers|
  {
    if |chain| < |powers| {
      var room := LevelRoom(chain, powers, |chain|);
      assert false;
    }
  }

  lemma {:induction false} AllPassed<P>(chain: Chain<P>, powers: seq<nat>, key: Key, n: nat)
    requires Orderly(chain, powers) && n <= |chain| && Seek(chain, powers, key, 0) == Nowhere
    requires forall j: nat :: j < |powers| ==> LevelRoom(chain, powers, j) == 0
    ensures forall j :: 0 <= j < n ==> Passes(chain, powers, key, j)
  {
    hide LevelRoom, Seek, Routed, LawfulStates;
    if n > 0 {
      AllPassed(chain, powers, key, n - 1);
      NotFoundAnywhere(chain, powers, key, 0, n - 1);
      PassesIff(chain, powers, key, n - 1);
    }
  }

  predicate Fitting<P>(route: Route<P>) {
    route.selection.Open? ==>
      && route.selection.level < |route.chain|
      && route.selection.slot < |route.chain[route.selection.level].slots|
  }

  /** The chain a put leaves in its own view: walked, and with the key's slot if it took one. */
  function Settled<P>(route: Route<P>, key: Key, payload: P): Chain<P>
    requires Fitting(route)
  {
    match route.selection
    case Open(level, slot) => WithSlot(route.chain, level, slot, Used(key, payload))
    case _ => route.chain
  }

  /** Level by level, a walk costs one key's room where it places the key, and none anywhere else. */
  lemma {:induction false} WalkRooms<P>(chain: Chain<P>, powers: seq<nat>, key: Key, i: nat, payload: P, j: nat)
    requires Orderly(chain, powers) && Usable(powers) && Walked(chain, powers, key, i) && j < |powers|
    ensures var route := Walk(chain, powers, key, i);
            && WalkLeaves(chain, powers, key, i, route)
            && LevelRoom(chain, powers, j) == LevelRoom(Settled(route, key, payload), powers, j)
                                              + if route.selection.Open? && route.selection.level == j then 1 else 0
    decreases |powers| - i
  {
    hide ProbeFrom, HoldsKeys, Routed, LawfulStates, LevelRoom, Seek, Passes, Resealed, Walked, WalkLeaves, PassedOn,
         Pow2, Threshold;
    AtLevel(chain, powers, key, i);
    WalkKeeps(chain, powers, key, i);
    LeavesFit(chain, powers, key, i, Walk(chain, powers, key, i));
    if i < |powers| {
      var now := WithLevel(chain, powers, i);
      WithLevelKeeps(chain, powers, i);
      WithLevelRooms(chain, powers, i, j);
      var probe := ProbeSlots(now[i].slots, key, powers[i]);
      if probe.Found? {
      } else if probe.Full? || now[i].sealed {
        var next := if probe.Full? then WithState(now, i, Pow2(powers[i]), true) else now;
        PassLevel(chain, next, powers, key, i);
        PassedFacts(chain, next, powers, key, i);
        if probe.Full? { FullRooms(now, powers, key, i, j); }
        WalkRooms(next, powers, key, i + 1, payload, j);
      } else {
        TakeRooms(now, powers, key, i, payload, j);
      }
    }
  }

  lemma LeavesFit<P>(chain: Chain<P>, powers: seq<nat>, key: Key, i: nat, route: Route<P>)
    requires WalkLeaves(chain, powers, key, i, route)
    ensures Fitting(route)
  {
    hide ProbeFrom, Resealed, Walked, Orderly;
  }

  lemma AtLevel<P>(chain: Chain<P>, powers: seq<nat>, key: Key, i: nat)
    requires Shaped(chain, powers) && Walked(chain, powers, key, i)
    ensures i <= |chain|
  {
  }

  lemma PassedFacts<P>(chain: Chain<P>, next: Chain<P>, powers: seq<nat>, key: Key, i: nat)
    requires PassedOn(chain, next, powers, key, i)
    ensures Orderly(next, powers) && Walked(next, powers, key, i + 1)
  {
  }

  lemma WithLevelRooms<P>(chain: Chain<P>, powers: seq<nat>, i: nat, j: nat)
    requires |chain| <= |powers| && Usable(powers) && i < |powers| && i <= |chain| && j < |powers|
    ensures LevelRoom(WithLevel(chain, powers, i), powers, j) == LevelRoom(chain, powers, j)
  {
    if i == |chain| {
      FreshRoom<P>(powers[i]);
      ThresholdLeavesRoom(powers[i]);
    }
  }

  lemma FullRooms<P>(chain: Chain<P>, powers: seq<nat>, key: Key, i: nat, j: nat)
    requires Shaped(chain, powers) && i < |chain| && j < |powers|
    requires ProbeSlots(chain[i].slots, key, powers[i]).Full?
    ensures LevelRoom(WithState(chain, i, Pow2(powers[i]), true), powers, j) == LevelRoom(chain, powers, j)
  {
    hide ProbeFrom, Vacancies;
    FullHasNone(chain[i].slots, key, powers[i]);
  }

  lemma TakeRooms<P>(chain: Chain<P>, powers: seq<nat>, key: Key, i: nat, payload: P, j: nat)
    requires Orderly(chain, powers) && i < |chain| && j < |powers| && !chain[i].sealed
    requires ProbeSlots(chain[i].slots, key, powers[i]).Free?
    ensures var count, slot := chain[i].count + 1, ProbeSlots(chain[i].slots, key, powers[i]).slot;
            var after := WithSlot(WithState(chain, i, count, count >= Threshold(powers[i])), i, slot,
                                  Used(key, payload));
            LevelRoom(chain, powers, j) == LevelRoom(after, powers, j) + if i == j then 1 else 0
  {
    hide ProbeFrom, HoldsKeys, Routed;
    FreeHasOne(chain[i].slots, key, powers[i]);
    OccupyOne(chain[i].slots, ProbeSlots(chain[i].slots, key, powers[i]).slot, key, payload);
  }

  /** A placement costs exactly one key's room; a walk that places nothing costs none. */
  lemma WalkRoom<P>(chain: Chain<P>, powers: seq<nat>, key: Key, payload: P)
    requires Orderly(chain, powers) && Usable(powers)
    ensures var route := Walk(chain, powers, key, 0);
            && WalkLeaves(chain, powers, key, 0, route)
            && Room(chain, powers, |powers|) == Room(Settled(route, key, payload), powers, |powers|)
                                                + if route.selection.Open? then 1 else 0
  {
    hide LevelRoom, Room, Walk, Routed, LawfulStates;
    WalkKeeps(chain, powers, key, 0);
    var route := Walk(chain, powers, key, 0);
    var after := Settled(route, key, payload);
    forall j: nat | j < |powers|
      ensures LevelRoom(chain, powers, j) == LevelRoom(after, powers, j)
                                             + if route.selection.Open? && route.selection.level == j then 1 else 0
    {
      WalkRooms(chain, powers, key, 0, payload, j);
    }
    RoomDiffers(chain, after, powers, |powers|, if route.selection.Open? then route.selection.level else 0,
      if route.selection.Open? then 1 else 0);
  }

  /** A put of a key that is not stored is refused exactly when its chain has no room. */
  lemma RefusedIff<P>(chain: Chain<P>, powers: seq<nat>, key: Key)
    requires Orderly(chain, powers) && Usable(powers)
    ensures var selection := Walk(chain, powers, key, 0).selection;
            && (selection.Existing? <==> Seek(chain, powers, key, 0).At?)
            && (selection.NoRoom? <==> Seek(chain, powers, key, 0) == Nowhere && Room(chain, powers, |powers|) == 0)
  {
    hide LevelRoom, Room, Walk, Routed, LawfulStates, Seek;
    WalkKeeps(chain, powers, key, 0);
    NoRoomIff(chain, powers, key, 0);
    if Seek(chain, powers, key, 0) == Nowhere { NoPlaceIff(chain, powers, key); }
  }

  // ----- chains no crash has touched -----

  /** In such a chain the walk meets no full level, and counts no level beyond its load. */
  lemma {:induction false} WalkWithinLoad<P>(chain: Chain<P>, powers: seq<nat>, key: Key, i: nat)
    requires Orderly(chain, powers) && Usable(powers) && Walked(chain, powers, key, i) && Clean(chain, powers)
    ensures var route := Walk(chain, powers, key, i);
            && WalkLeaves(chain, powers, key, i, route) && Fitting(route) && WithinLoad(route.chain, powers)
            && (route.selection.Open? ==>
                 var level := route.chain[route.selection.level]; |Occupied(level.slots)| < level.count)
    decreases |powers| - i
  {
    hide ProbeFrom, HoldsKeys, Routed, LawfulStates, Seek, Passes, Resealed, Walked, WalkLeaves, PassedOn, Reachable,
         Pow2, Threshold, Occupied;
    AtLevel(chain, powers, key, i);
    WalkKeeps(chain, powers, key, i);
    LeavesFit(chain, powers, key, i, Walk(chain, powers, key, i));
    if i < |powers| {
      var now := WithLevel(chain, powers, i);
      WithLevelKeeps(chain, powers, i);
      WithLevelClean(chain, powers, i);
      CleanNeverFull(now, powers, key, i);
      var probe := ProbeSlots(now[i].slots, key, powers[i]);
      if probe.Found? {
      } else if now[i].sealed {
        PassLevel(chain, now, powers, key, i);
        PassedFacts(chain, now, powers, key, i);
        WalkWithinLoad(now, powers, key, i + 1);
      } else {
        TakeWithinLoad(now, powers, i);
      }
    }
  }

  lemma WithLevelClean<P>(chain: Chain<P>, powers: seq<nat>, i: nat)
    requires Orderly(chain, powers) && Usable(powers) && i < |powers| && i <= |chain| && Clean(chain, powers)
    ensures Clean(WithLevel(chain, powers, i), powers)
  {
    hide ProbeFrom, HoldsKeys, LawfulStates, Reachable;
    if i == |chain| {
      WithLevelKeeps(chain, powers, i);
      assert Occupied(Fresh<P>(powers[i]).slots) == {};
      ResealedStaysClean(chain, WithLevel(chain, powers, i), powers);
    }
  }

  lemma TakeWithinLoad<P>(chain: Chain<P>, powers: seq<nat>, i: nat)
    requires Orderly(chain, powers) && i < |chain| && WithinLoad(chain, powers) && !chain[i].sealed
    ensures var count := chain[i].count + 1;
            var after := WithState(chain, i, count, count >= Threshold(powers[i]));
            WithinLoad(after, powers) && |Occupied(after[i].slots)| < after[i].count
  {
    hide Occupied, Routed, Threshold, Pow2;
  }

  lemma WalkKeepsClean<P>(chain: Chain<P>, powers: seq<nat>, key: Key)
    requires Orderly(chain, powers) && Usable(powers) && Clean(chain, powers)
    ensures var route := Walk(chain, powers, key, 0);
            && Fitting(route) && Clean(route.chain, powers) && WithinLoad(route.chain, powers)
            && (route.selection.Open? ==>
                 var level := route.chain[route.selection.level]; |Occupied(level.slots)| < level.count)
  {
    hide ProbeFrom, HoldsKeys, LawfulStates, Seek, Passes, Resealed, Walk, Reachable, Occupied;
    WalkWithinLoad(chain, powers, key, 0);
    ResealedStaysClean(chain, Walk(chain, powers, key, 0).chain, powers);
  }

  /** Every level is there and closed. */
  ghost predicate AllClosed<P>(chain: Chain<P>, powers: seq<nat>) {
    |chain| == |powers| && forall i :: 0 <= i < |chain| ==> chain[i].sealed
  }

  lemma {:induction false} ClosedIsRoomless<P>(chain: Chain<P>, powers: seq<nat>)
    requires AllClosed(chain, powers)
    ensures Room(chain, powers, |powers|) == 0
  {
    NoLevelHasRoom(chain, powers, |powers|);
  }

  /** In such a chain only closed levels have no room. */
  lemma RoomlessIsClosed<P>(chain: Chain<P>, powers: seq<nat>)
    requires Orderly(chain, powers) && Usable(powers) && Clean(chain, powers)
    requires Room(chain, powers, |powers|) == 0
    ensures AllClosed(chain, powers)
  {
    hide Reachable, Routed, Pow2, Threshold;
    NoLevelHasRoom(chain, powers, |powers|);
    AllThere(chain, powers);
    forall i | 0 <= i < |chain| ensures chain[i].sealed {
      ThresholdLeavesRoom(powers[i]);
      assert LevelRoom(chain, powers, i) == 0;
      OccupiedBound(chain[i].slots);
    }
  }
}
