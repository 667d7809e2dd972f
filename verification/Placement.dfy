/**
 When a batch finds room in the leveled directory, what it costs, and what a crash takes away: exactly when the put of
 `exact_replay.py` and `cue_shards.py` is refused, and when an interrupted batch can be put again.
 */
module Placement {
  import opened Directory
  import opened LevelWalk
  import opened LeveledTable
  import opened Wrappers

  /** How many more keys the levels of one prefix can take. */
  ghost function RoomFor(disk: Disk, name: ChainName, powers: seq<nat>): nat {
    Room(ChainAt(disk.chains, name), powers, |powers|)
  }

  /** A put is refused exactly when its key is bound to another item, or is not bound and has no room. */
  lemma RefusedExactly(disk: Disk, item: Item, key: Key, powers: seq<nat>, hash: Hash)
    requires Lawful(disk, powers, hash) && Usable(powers) && hash(item.id) == Some(key)
    ensures var bound := Lookup(disk, powers, hash, item.id.Space(), key);
            && (PlaceOne(disk, item, key, powers, hash) == Refuses(Conflict(item.id))
                <==> bound.Some? && bound.value != item)
            && (PlaceOne(disk, item, key, powers, hash) == Refuses(CapacityExceeded)
                <==> bound.None? && RoomFor(disk, NameOf(item.id.Space(), key), powers) == 0)
            && (PlaceOne(disk, item, key, powers, hash).Refuses? ==>
                  PlaceOne(disk, item, key, powers, hash).error in {Conflict(item.id), CapacityExceeded})
  {
    hide Lawful, Room, Walk, WalkLeaves, Seek;
    var name := NameOf(item.id.Space(), key);
    LawfulIsOrderly(disk, name, powers, hash);
    RefusedIff(ChainAt(disk.chains, name), powers, key);
    RouteIsWalk(disk, item.id.Space(), key, powers, hash);
  }

  lemma LawfulIsOrderly(disk: Disk, name: ChainName, powers: seq<nat>, hash: Hash)
    requires Lawful(disk, powers, hash)
    ensures Orderly(ChainAt(disk.chains, name), powers)
    ensures LawfulChain(ChainAt(disk.chains, name), name, disk.capsules, powers, hash)
  {
    hide PointsRight, AllPointRight, HoldsKeys;
    ChainIsLawful(disk, name, powers, hash);
  }

  lemma RouteIsWalk(disk: Disk, space: Namespace, key: Key, powers: seq<nat>, hash: Hash)
    requires Lawful(disk, powers, hash) && Usable(powers)
    ensures var chain := ChainAt(disk.chains, NameOf(space, key));
            && Orderly(chain, powers)
            && RouteOf(disk, space, key, powers, hash) == Walk(chain, powers, key, 0)
            && (Lookup(disk, powers, hash, space, key).Some? <==> Seek(chain, powers, key, 0).At?)
  {
    hide Walk, Seek, WalkLeaves, PointsRight, HoldsKeys;
    LawfulIsOrderly(disk, NameOf(space, key), powers, hash);
  }

  // ----- what a put changes -----

  /** Every slot taken in `after` was taken the same way in `before`, or is one of the new items' and in `placed`. */
  ghost predicate SlotsTaken(before: Chain<int>, after: Chain<int>, bound: nat, placed: set<Key>) {
    forall i, s :: 0 <= i < |after| && 0 <= s < |after[i].slots| && after[i].slots[s].Used? ==>
      || (i < |before| && s < |before[i].slots| && after[i].slots[s] == before[i].slots[s])
      || (after[i].slots[s].payload >= bound && after[i].slots[s].key in placed)
  }

  /** What placing items has done to one chain: each key placed was missing, is found, and cost one key's room. */
  ghost predicate Cost(start: Disk, now: Disk, name: ChainName, placed: set<Key>, powers: seq<nat>, hash: Hash) {
    && Lawful(start, powers, hash) && Lawful(now, powers, hash) && Grows(start, now)
    && RoomFor(start, name, powers) == RoomFor(now, name, powers) + |placed|
    && SlotsTaken(ChainAt(start.chains, name), ChainAt(now.chains, name), |start.capsules|, placed)
    && forall key :: key in placed ==>
         && NameOf(name.space, key) == name
         && Lookup(start, powers, hash, name.space, key).None? && Lookup(now, powers, hash, name.space, key).Some?
  }

  lemma NoCost(disk: Disk, name: ChainName, powers: seq<nat>, hash: Hash)
    requires Lawful(disk, powers, hash)
    ensures Cost(disk, disk, name, {}, powers, hash)
  {
    hide Lawful, Room;
    NothingChanged(disk);
  }

  /** A put of an item that is there costs nothing; one that places it costs one key's room in its chain alone. */
  lemma PutCost(disk: Disk, item: Item, key: Key, name: ChainName, powers: seq<nat>, hash: Hash)
    requires Lawful(disk, powers, hash) && Usable(powers) && hash(item.id) == Some(key)
    requires PlaceOne(disk, item, key, powers, hash).Takes?
    ensures var after := PlaceOne(disk, item, key, powers, hash).disk;
            var placed := name == NameOf(item.id.Space(), key)
                         && Lookup(disk, powers, hash, item.id.Space(), key).None?;
            Cost(disk, after, name, if placed then {key} else {}, powers, hash)
  {
    hide Lawful, Room, Walk, WalkLeaves, Lookup, Grows, SlotsTaken;
    var after := PlaceOne(disk, item, key, powers, hash).disk;
    var at := NameOf(item.id.Space(), key);
    if name == at {
      RouteIsWalk(disk, item.id.Space(), key, powers, hash);
      WalkRoom(ChainAt(disk.chains, at), powers, key, |disk.capsules|);
      RouteSlots(ChainAt(disk.chains, at), powers, key, RouteOf(disk, item.id.Space(), key, powers, hash),
        |disk.capsules|);
      PutIsSettled(disk, item, key, powers, hash);
    } else {
      PutElsewhere(disk, item, key, name, powers, hash);
      SameSlots(ChainAt(disk.chains, name), |disk.capsules|);
    }
  }

  lemma SameSlots(chain: Chain<int>, bound: nat)
    ensures SlotsTaken(chain, chain, bound, {})
  {
  }

  lemma PutElsewhere(disk: Disk, item: Item, key: Key, name: ChainName, powers: seq<nat>, hash: Hash)
    requires Lawful(disk, powers, hash) && Usable(powers) && hash(item.id) == Some(key)
    requires PlaceOne(disk, item, key, powers, hash).Takes? && name != NameOf(item.id.Space(), key)
    ensures ChainAt(PlaceOne(disk, item, key, powers, hash).disk.chains, name) == ChainAt(disk.chains, name)
  {
    hide Lawful, Lookup, RouteOf, Settled;
  }

  lemma PutIsSettled(disk: Disk, item: Item, key: Key, powers: seq<nat>, hash: Hash)
    requires Lawful(disk, powers, hash) && Usable(powers) && hash(item.id) == Some(key)
    requires PlaceOne(disk, item, key, powers, hash).Takes?
    ensures var route := RouteOf(disk, item.id.Space(), key, powers, hash);
            && ChainAt(PlaceOne(disk, item, key, powers, hash).disk.chains, NameOf(item.id.Space(), key))
               == Settled(route, key, |disk.capsules|)
            && (route.selection.Open? <==> Lookup(disk, powers, hash, item.id.Space(), key).None?)
  {
    hide Lawful, Lookup, RouteOf, WalkLeaves;
    var route := RouteOf(disk, item.id.Space(), key, powers, hash);
  }

  lemma RouteSlots(chain: Chain<int>, powers: seq<nat>, key: Key, route: Route<int>, offset: nat)
    requires WalkLeaves(chain, powers, key, 0, route) && Fitting(route)
    ensures SlotsTaken(chain, Settled(route, key, offset), offset, if route.selection.Open? then {key} else {})
  {
    hide ProbeFrom, Seek, Orderly, Walked;
    var after := Settled(route, key, offset);
    forall i, s | 0 <= i < |after| && 0 <= s < |after[i].slots| && after[i].slots[s].Used?
      ensures (i < |chain| && s < |chain[i].slots| && after[i].slots[s] == chain[i].slots[s])
           || (route.selection.Open? && after[i].slots[s] == Used(key, offset))
    {
      if !(route.selection.Open? && i == route.selection.level && s == route.selection.slot) {
        assert after[i].slots[s] == route.chain[i].slots[s];
        UsedSlotHolds(route.chain[i], s);
      }
    }
  }

  /** Costs add up: what is placed later was missing until then. */
  lemma CostsAdd(start: Disk, mid: Disk, after: Disk, name: ChainName, first: set<Key>, second: set<Key>,
      powers: seq<nat>, hash: Hash)
    requires Cost(start, mid, name, first, powers, hash) && Cost(mid, after, name, second, powers, hash)
    ensures Cost(start, after, name, first + second, powers, hash) && first !! second
  {
    hide Lawful, Room, Lookup, Grows, SlotsTaken;
    GrowsTransitive(start, mid, after);
    forall key | key in first ensures Lookup(after, powers, hash, name.space, key).Some? {
      LookupIsStable(mid, after, powers, hash, name.space, key);
    }
    forall key | key in second ensures Lookup(start, powers, hash, name.space, key).None? {
      if Lookup(start, powers, hash, name.space, key).Some? {
        LookupIsStable(start, mid, powers, hash, name.space, key);
      }
    }
    assert first !! second;
    assert |first + second| == |first| + |second|;
    MoreCapsules(start, mid);
    SlotsTakenAdd(ChainAt(start.chains, name), ChainAt(mid.chains, name), ChainAt(after.chains, name),
      |start.capsules|, |mid.capsules|, first, second);
  }

  lemma MoreCapsules(before: Disk, after: Disk)
    requires Grows(before, after)
    ensures before.capsules <= after.capsules
  {
  }

  lemma SlotsTakenAdd(a: Chain<int>, b: Chain<int>, c: Chain<int>, lower: nat, upper: nat, first: set<Key>,
      second: set<Key>)
    requires SlotsTaken(a, b, lower, first) && SlotsTaken(b, c, upper, second) && lower <= upper
    ensures SlotsTaken(a, c, lower, first + second)
  {
    forall i, s | 0 <= i < |c| && 0 <= s < |c[i].slots| && c[i].slots[s].Used?
      ensures (i < |a| && s < |a[i].slots| && c[i].slots[s] == a[i].slots[s])
           || (c[i].slots[s].payload >= lower && c[i].slots[s].key in first + second)
    {
      if i < |b| && s < |b[i].slots| && c[i].slots[s] == b[i].slots[s] { assert b[i].slots[s].Used?; }
    }
  }

  // ----- a batch -----

  /** A staged batch has dealt with all its rows: each is bound, each first row of a key under its own identity. */
  ghost predicate StagedFrom(start: Disk, now: Disk, seen: map<SeenKey, Binding>, items: seq<Item>, powers: seq<nat>,
      hash: Hash) {
    && Lawful(start, powers, hash) && Lawful(now, powers, hash) && Grows(start, now)
    && CapsulesFrom(start.capsules, now.capsules, items)
    && Dealt(seen, items, |items|, hash)
    && SeenAreBound(now, seen, powers, hash)
    && FirstsBound(now, items, |items|, powers, hash)
  }

  lemma {:induction false} KeptMeans(start: Disk, items: seq<Item>, powers: seq<nat>, hash: Hash)
    requires Lawful(start, powers, hash) && Usable(powers) && StageAll(start, items, powers, hash).Kept?
    ensures var kept := StageAll(start, items, powers, hash);
            StagedFrom(start, kept.disk, kept.seen, items, powers, hash)
  {
    hide Lawful, Lookup, StageOne, Grows, StagedFrom;
    if items == [] {
      NothingChanged(start);
      NothingStaged(start, powers, hash);
    } else {
      var init, last := items[..|items| - 1], items[|items| - 1];
      var kept := StageAll(start, init, powers, hash);
      KeptMeans(start, init, powers, hash);
      OneMore(start, kept.disk, kept.seen, init, last, powers, hash);
      assert init + [last] == items;
    }
  }

  lemma NothingStaged(start: Disk, powers: seq<nat>, hash: Hash)
    requires Lawful(start, powers, hash) && Grows(start, start)
    ensures StagedFrom(start, start, map[], [], powers, hash)
  {
    hide Lawful, Lookup, Grows;
  }

  lemma OneMore(start: Disk, now: Disk, seen: map<SeenKey, Binding>, items: seq<Item>, item: Item, powers: seq<nat>,
      hash: Hash)
    requires StagedFrom(start, now, seen, items, powers, hash) && Usable(powers)
    requires StageOne(now, seen, item, powers, hash).Kept?
    ensures var kept := StageOne(now, seen, item, powers, hash);
            StagedFrom(start, kept.disk, kept.seen, items + [item], powers, hash)
  {
    hide Lawful, Lookup, StageOne, Grows, CapsulesFrom, Dealt, SeenAreBound, FirstsBound, SeenKeyOf;
    var kept := StageOne(now, seen, item, powers, hash);
    var more := items + [item];
    var key := StagedRow(now, seen, item, powers, hash);
    RowKey(item, key, hash);
    GrowsTransitive(start, now, kept.disk);
    CapsulesFromExtends(start.capsules, now.capsules, items, item);
    DealtExtends(seen, items, item, hash);
    FirstsBoundExtends(now, items, item, powers, hash);
    CapsulesFromStep(start.capsules, now.capsules, kept.disk.capsules, more, |items|);
    DealtStep(seen, more, |items|, hash);
    FirstsBoundStep(now, kept.disk, seen, more, |items|, key, powers, hash);
    GrowthKeepsSeenBound(now, kept.disk, seen, SeenKey(item.id.Space(), key), item.binding, powers, hash);
  }

  lemma RowKey(item: Item, key: Key, hash: Hash)
    requires hash(item.id) == Some(key)
    ensures SeenKeyOf(item, hash) == Some(SeenKey(item.id.Space(), key))
  {
  }

  /** What keeping one row means. */
  lemma StagedRow(now: Disk, seen: map<SeenKey, Binding>, item: Item, powers: seq<nat>, hash: Hash) returns (key: Key)
    requires Lawful(now, powers, hash) && Usable(powers) && SeenAreBound(now, seen, powers, hash)
    requires StageOne(now, seen, item, powers, hash).Kept?
    ensures hash(item.id) == Some(key)
    ensures var kept := StageOne(now, seen, item, powers, hash);
            var sk := SeenKey(item.id.Space(), key);
            && Lawful(kept.disk, powers, hash) && Grows(now, kept.disk)
            && StagedTo(now, kept.disk, seen, key, item, powers, hash)
            && kept.seen == seen[sk := item.binding] && (sk in seen ==> seen[sk] == item.binding)
            && (kept.disk.capsules == now.capsules || kept.disk.capsules == now.capsules + [Whole(item)])
            && (if sk in seen then kept.disk == now
                else PlaceOne(now, item, key, powers, hash) == Takes(kept.disk))
            && Lookup(kept.disk, powers, hash, item.id.Space(), key).Some?
            && Lookup(kept.disk, powers, hash, item.id.Space(), key).value.binding == item.binding
  {
    hide Lawful, Lookup, Grows, Walk, RouteOf;
    key := hash(item.id).value;
    NothingChanged(now);
    if SeenKey(item.id.Space(), key) in seen { SkipStaged(now, seen, item, key, powers, hash); }
  }

  function KeyOf(item: Item, hash: Hash): Key
    requires hash(item.id).Some?
  {
    hash(item.id).value
  }

  predicate InChain(item: Item, name: ChainName, hash: Hash) {
    hash(item.id).Some? && NameOf(item.id.Space(), KeyOf(item, hash)) == name
  }

  /** The keys a batch asks of one chain. */
  function KeysOf(items: seq<Item>, name: ChainName, hash: Hash): set<Key> {
    set j | 0 <= j < |items| && InChain(items[j], name, hash) :: KeyOf(items[j], hash)
  }

  lemma KeysOfPart(items: seq<Item>, all: seq<Item>, name: ChainName, hash: Hash)
    requires forall item :: item in items ==> item in all
    ensures KeysOf(items, name, hash) <= KeysOf(all, name, hash)
  {
    forall key | key in KeysOf(items, name, hash) ensures key in KeysOf(all, name, hash) {
      var j :| 0 <= j < |items| && InChain(items[j], name, hash) && KeyOf(items[j], hash) == key;
      assert items[j] in items && items[j] in all;
      var k :| 0 <= k < |all| && all[k] == items[j];
    }
  }

  lemma KeyIn(items: seq<Item>, j: nat, name: ChainName, hash: Hash)
    requires j < |items| && InChain(items[j], name, hash)
    ensures KeyOf(items[j], hash) in KeysOf(items, name, hash)
  {
  }

  /** What a batch costs a chain: one key's room for each key it places, and every key it places is one of its own. */
  lemma {:induction false} BatchCost(start: Disk, items: seq<Item>, name: ChainName, powers: seq<nat>, hash: Hash)
      returns (placed: set<Key>)
    requires Lawful(start, powers, hash) && Usable(powers) && StageAll(start, items, powers, hash).Kept?
    ensures Cost(start, StageAll(start, items, powers, hash).disk, name, placed, powers, hash)
    ensures placed <= KeysOf(items, name, hash)
  {
    hide Lawful, Lookup, StageOne, Grows, Cost, StagedFrom, KeysOf;
    if items == [] {
      NoCost(start, name, powers, hash);
      placed := {};
    } else {
      var init, last := items[..|items| - 1], items[|items| - 1];
      var kept := StageAll(start, init, powers, hash);
      var first := BatchCost(start, init, name, powers, hash);
      KeptMeans(start, init, powers, hash);
      var second := RowCost(start, init, kept.disk, kept.seen, last, name, powers, hash);
      CostsAdd(start, kept.disk, StageAll(start, items, powers, hash).disk, name, first, second, powers, hash);
      placed := first + second;
      KeysOfPart(init, items, name, hash);
      KeysOfPart([last], items, name, hash);
    }
  }

  lemma RowCost(start: Disk, items: seq<Item>, now: Disk, seen: map<SeenKey, Binding>, item: Item, name: ChainName,
      powers: seq<nat>, hash: Hash) returns (placed: set<Key>)
    requires StagedFrom(start, now, seen, items, powers, hash) && Usable(powers)
    requires StageOne(now, seen, item, powers, hash).Kept?
    ensures Cost(now, StageOne(now, seen, item, powers, hash).disk, name, placed, powers, hash)
    ensures placed <= KeysOf([item], name, hash)
  {
    hide Lawful, Lookup, StageOne, Grows, Cost, PlaceOne, StagedTo;
    var key := StagedRow(now, seen, item, powers, hash);
    if SeenKey(item.id.Space(), key) in seen {
      NoCost(now, name, powers, hash);
      placed := {};
    } else {
      PutCost(now, item, key, name, powers, hash);
      placed := if name == NameOf(item.id.Space(), key) && Lookup(now, powers, hash, item.id.Space(), key).None?
                then {key} else {};
      if placed != {} { KeyIn([item], 0, name, hash); }
    }
  }

  // ----- how much room a batch needs -----

  /** The keys of a batch that no reader finds. */
  ghost function Missing(disk: Disk, items: seq<Item>, name: ChainName, powers: seq<nat>, hash: Hash): set<Key>
    requires Lawful(disk, powers, hash)
  {
    set key | key in KeysOf(items, name, hash) && Lookup(disk, powers, hash, name.space, key).None?
  }

  ghost predicate HasSlot(chain: Chain<int>, key: Key) {
    exists i, s :: 0 <= i < |chain| && 0 <= s < |chain[i].slots| && chain[i].slots[s].Used?
      && chain[i].slots[s].key == key
  }

  /** The keys of a batch that no slot holds, found or hidden. */
  ghost function Slotless(disk: Disk, items: seq<Item>, name: ChainName, hash: Hash): set<Key> {
    set key | key in KeysOf(items, name, hash) && !HasSlot(ChainAt(disk.chains, name), key)
  }

  lemma FoundHasSlot(disk: Disk, space: Namespace, key: Key, powers: seq<nat>, hash: Hash)
    requires Lawful(disk, powers, hash) && Lookup(disk, powers, hash, space, key).Some?
    ensures HasSlot(ChainAt(disk.chains, NameOf(space, key)), key)
  {
    hide ProbeFrom;
    var chain := ChainAt(disk.chains, NameOf(space, key));
    var place := Seek(chain, powers, key, 0);
    assert chain[place.level].slots[place.slot].key == key;
  }

  lemma ChainOfKey(items: seq<Item>, name: ChainName, key: Key, hash: Hash) returns (j: nat)
    requires key in KeysOf(items, name, hash)
    ensures j < |items| && hash(items[j].id) == Some(key) && NameOf(items[j].id.Space(), key) == name
  {
    j :| 0 <= j < |items| && InChain(items[j], name, hash) && KeyOf(items[j], hash) == key;
  }

  /** Everything a kept batch asked for is found. */
  lemma NothingMissing(start: Disk, items: seq<Item>, name: ChainName, powers: seq<nat>, hash: Hash)
    requires Lawful(start, powers, hash) && Usable(powers) && StageAll(start, items, powers, hash).Kept?
    ensures Missing(StageAll(start, items, powers, hash).disk, items, name, powers, hash) == {}
    ensures Slotless(StageAll(start, items, powers, hash).disk, items, name, hash) == {}
  {
    hide Lawful, Lookup, StageAll, Grows, KeysOf, HasSlot;
    KeptMeans(start, items, powers, hash);
    var kept := StageAll(start, items, powers, hash);
    forall key | key in KeysOf(items, name, hash)
      ensures Lookup(kept.disk, powers, hash, name.space, key).Some? && HasSlot(ChainAt(kept.disk.chains, name), key)
    {
      var j := ChainOfKey(items, name, key, hash);
      RowKey(items[j], key, hash);
      assert SeenKey(name.space, key) in kept.seen;
      FoundHasSlot(kept.disk, name.space, key, powers, hash);
    }
  }

  lemma SizeApart<T>(placed: set<T>, before: set<T>, after: set<T>)
    requires placed <= before && placed !! after && after <= before
    ensures |placed| <= |before| - |after|
  {
    SubsetSize(placed, before - after);
  }

  /**
   The room of a chain minus what a set of rows still misses there does not fall while rows of the set are staged; the
   room minus the rows' keys without a slot does not rise.
   */
  lemma SlackStays(start: Disk, items: seq<Item>, all: seq<Item>, name: ChainName, powers: seq<nat>, hash: Hash)
    requires Lawful(start, powers, hash) && Usable(powers) && StageAll(start, items, powers, hash).Kept?
    requires forall item :: item in items ==> item in all
    ensures var now := StageAll(start, items, powers, hash).disk;
            && RoomFor(now, name, powers) - |Missing(now, all, name, powers, hash)|
               >= RoomFor(start, name, powers) - |Missing(start, all, name, powers, hash)|
            && RoomFor(now, name, powers) - |Slotless(now, all, name, hash)|
               <= RoomFor(start, name, powers) - |Slotless(start, all, name, hash)|
  {
    hide *;
    var now := StageAll(start, items, powers, hash).disk;
    var placed := BatchCost(start, items, name, powers, hash);
    KeysOfPart(items, all, name, hash);
    PlacedWereMissing(start, now, name, placed, all, powers, hash);
    SizeApart(placed, Missing(start, all, name, powers, hash), Missing(now, all, name, powers, hash));
    SlotlessArePlaced(start, now, name, placed, all, powers, hash);
    CostRoom(start, now, name, placed, powers, hash);
  }

  lemma CostRoom(start: Disk, now: Disk, name: ChainName, placed: set<Key>, powers: seq<nat>, hash: Hash)
    requires Cost(start, now, name, placed, powers, hash)
    ensures RoomFor(start, name, powers) == RoomFor(now, name, powers) + |placed|
  {
  }

  lemma PlacedWereMissing(start: Disk, now: Disk, name: ChainName, placed: set<Key>, all: seq<Item>, powers: seq<nat>,
      hash: Hash)
    requires Cost(start, now, name, placed, powers, hash) && placed <= KeysOf(all, name, hash)
    ensures Lawful(start, powers, hash) && Lawful(now, powers, hash)
    ensures var before, after := Missing(start, all, name, powers, hash), Missing(now, all, name, powers, hash);
            placed <= before && placed !! after && after <= before
  {
    hide Lawful, Lookup, Grows, KeysOf, SlotsTaken, Room;
    MissingFalls(start, now, all, name, powers, hash);
  }

  /** What is missing later was missing before. */
  lemma MissingFalls(start: Disk, now: Disk, all: seq<Item>, name: ChainName, powers: seq<nat>, hash: Hash)
    requires Lawful(start, powers, hash) && Lawful(now, powers, hash) && Grows(start, now)
    ensures Missing(now, all, name, powers, hash) <= Missing(start, all, name, powers, hash)
    ensures |Missing(now, all, name, powers, hash)| <= |Missing(start, all, name, powers, hash)|
  {
    hide Lawful, Lookup, Grows, KeysOf;
    forall key | key in Missing(now, all, name, powers, hash) ensures key in Missing(start, all, name, powers, hash) {
      if Lookup(start, powers, hash, name.space, key).Some? {
        LookupIsStable(start, now, powers, hash, name.space, key);
      }
    }
    SubsetSize(Missing(now, all, name, powers, hash), Missing(start, all, name, powers, hash));
  }

  lemma SlotlessArePlaced(start: Disk, now: Disk, name: ChainName, placed: set<Key>, all: seq<Item>, powers: seq<nat>,
      hash: Hash)
    requires Cost(start, now, name, placed, powers, hash)
    ensures |Slotless(start, all, name, hash)| - |Slotless(now, all, name, hash)| <= |placed|
  {
    hide Lawful, Lookup, Grows, KeysOf, Room;
    var before, after := Slotless(start, all, name, hash), Slotless(now, all, name, hash);
    forall key | key in before - after ensures key in placed {
      NewSlotIsPlaced(ChainAt(start.chains, name), ChainAt(now.chains, name), |start.capsules|, placed, key);
    }
    SubsetSize(before - after, placed);
    SubsetSize(before * after, after);
    assert before == (before - after) + before * after;
  }

  lemma NewSlotIsPlaced(before: Chain<int>, after: Chain<int>, bound: nat, placed: set<Key>, key: Key)
    requires SlotsTaken(before, after, bound, placed) && HasSlot(after, key) && !HasSlot(before, key)
    ensures key in placed
  {
    var i, s :| 0 <= i < |after| && 0 <= s < |after[i].slots| && after[i].slots[s].Used?
      && after[i].slots[s].key == key;
    if i < |before| && s < |before[i].slots| && after[i].slots[s] == before[i].slots[s] {
      assert HasSlot(before, key);
      assert false;
    }
  }

  /** On any disk: a batch that is kept found a slot for every key of its own that had none. */
  lemma KeptNeedsRoom(start: Disk, items: seq<Item>, name: ChainName, powers: seq<nat>, hash: Hash)
    requires Lawful(start, powers, hash) && Usable(powers) && StageAll(start, items, powers, hash).Kept?
    ensures |Slotless(start, items, name, hash)| <= RoomFor(start, name, powers)
  {
    hide *;
    SlackStays(start, items, items, name, powers, hash);
    NothingMissing(start, items, name, powers, hash);
  }

  // ----- when a batch is kept -----

  predicate HoldsKey(slot: Slot<int>, key: Key) { slot.Used? && slot.key == key }

  /** Every slot of the key, found or hidden, holds this item. */
  ghost predicate AgreesOn(disk: Disk, item: Item, key: Key) {
    var chain := ChainAt(disk.chains, NameOf(item.id.Space(), key));
    forall i, s :: 0 <= i < |chain| && 0 <= s < |chain[i].slots| && HoldsKey(chain[i].slots[s], key) ==>
      0 <= chain[i].slots[s].payload < |disk.capsules| && disk.capsules[chain[i].slots[s].payload] == Whole(item)
  }

  /** The rows have keys, rows of one key have one binding, and the slots of a key hold the first row of it. */
  ghost predicate Storable(disk: Disk, items: seq<Item>, hash: Hash) {
    && (forall j :: 0 <= j < |items| ==> SeenKeyOf(items[j], hash).Some?)
    && (forall j, k :: 0 <= j < |items| && 0 <= k < |items| && SeenKeyOf(items[j], hash) == SeenKeyOf(items[k], hash)
         ==> items[j].binding == items[k].binding)
    && (forall j :: 0 <= j < |items| && FirstOfKey(items, j, hash) && hash(items[j].id).Some? ==>
         AgreesOn(disk, items[j], KeyOf(items[j], hash)))
  }

  lemma StorablePart(disk: Disk, items: seq<Item>, item: Item, hash: Hash)
    requires Storable(disk, items + [item], hash)
    ensures Storable(disk, items, hash)
    ensures SeenKeyOf(item, hash).Some?
    ensures forall j :: 0 <= j < |items| && SeenKeyOf(items[j], hash) == SeenKeyOf(item, hash) ==>
              items[j].binding == item.binding
    ensures (forall j :: 0 <= j < |items| ==> SeenKeyOf(items[j], hash) != SeenKeyOf(item, hash)) ==>
              hash(item.id).Some? && AgreesOn(disk, item, KeyOf(item, hash))
  {
    hide AgreesOn;
    var more := items + [item];
    assert more[|items|] == item;
    forall j | 0 <= j < |items|
      ensures more[j] == items[j] && (FirstOfKey(items, j, hash) ==> FirstOfKey(more, j, hash))
    {
      assert forall k :: 0 <= k < j ==> more[k] == items[k];
    }
    if forall j :: 0 <= j < |items| ==> SeenKeyOf(items[j], hash) != SeenKeyOf(item, hash) {
      assert FirstOfKey(more, |items|, hash);
    }
  }

  /** What is found under a key that was not placed is what the slots at the start held. */
  lemma FoundAgrees(start: Disk, now: Disk, placed: set<Key>, item: Item, key: Key, powers: seq<nat>, hash: Hash)
    requires Cost(start, now, NameOf(item.id.Space(), key), placed, powers, hash) && key !in placed
    requires AgreesOn(start, item, key)
    ensures Lookup(now, powers, hash, item.id.Space(), key) in {None, Some(item)}
  {
    hide ProbeFrom, Room, AllPointRight, HoldsKeys, LawfulStates, ChainGrows, SlotsKept;
    var name := NameOf(item.id.Space(), key);
    var before, after := ChainAt(start.chains, name), ChainAt(now.chains, name);
    var place := Seek(after, powers, key, 0);
    if place.At? {
      var used := after[place.level].slots[place.slot];
      assert used.Used? && used.key == key;
      assert before[place.level].slots[place.slot] == used;
      MoreCapsules(start, now);
    }
  }

  /** One more row of such a batch: kept, or there is no room for it. */
  lemma RowIsKept(start: Disk, items: seq<Item>, item: Item, powers: seq<nat>, hash: Hash)
    requires Lawful(start, powers, hash) && Usable(powers) && StageAll(start, items, powers, hash).Kept?
    requires Storable(start, items + [item], hash)
    ensures var kept := StageAll(start, items, powers, hash);
            match StageOne(kept.disk, kept.seen, item, powers, hash)
            case Kept(_, _) => true
            case Fails(error) =>
              && error == CapacityExceeded && hash(item.id).Some?
              && var name := NameOf(item.id.Space(), KeyOf(item, hash));
                 RoomFor(start, name, powers) < |Missing(start, items + [item], name, powers, hash)|
  {
    hide Lawful, Lookup, StageAll, Grows, Cost, AgreesOn, Storable, KeysOf, StagedFrom, PlaceOne;
    var kept := StageAll(start, items, powers, hash);
    KeptMeans(start, items, powers, hash);
    StorablePart(start, items, item, hash);
    RowHasKey(item, hash);
    var key := hash(item.id).value;
    var sk := SeenKey(item.id.Space(), key);
    if sk in kept.seen {
      var j := SeenRow(start, kept.disk, kept.seen, items, sk, powers, hash);
    } else {
      NewRow(start, items, item, key, powers, hash);
    }
  }

  lemma RowHasKey(item: Item, hash: Hash)
    requires SeenKeyOf(item, hash).Some?
    ensures hash(item.id).Some? && SeenKeyOf(item, hash) == Some(SeenKey(item.id.Space(), KeyOf(item, hash)))
  {
  }

  lemma SeenRow(start: Disk, now: Disk, seen: map<SeenKey, Binding>, items: seq<Item>, sk: SeenKey, powers: seq<nat>,
      hash: Hash) returns (j: nat)
    requires StagedFrom(start, now, seen, items, powers, hash) && sk in seen
    ensures j < |items| && SeenKeyOf(items[j], hash) == Some(sk) && items[j].binding == seen[sk]
  {
    hide Lawful, Lookup, Grows, SeenAreBound, FirstsBound, CapsulesFrom;
    j :| 0 <= j < |items| && SeenKeyOf(items[j], hash) == Some(sk);
  }

  lemma NewRow(start: Disk, items: seq<Item>, item: Item, key: Key, powers: seq<nat>, hash: Hash)
    requires Lawful(start, powers, hash) && Usable(powers) && StageAll(start, items, powers, hash).Kept?
    requires hash(item.id) == Some(key) && Storable(start, items + [item], hash)
    requires SeenKey(item.id.Space(), key) !in StageAll(start, items, powers, hash).seen
    ensures match PlaceOne(StageAll(start, items, powers, hash).disk, item, key, powers, hash)
            case Takes(_) => true
            case Refuses(error) =>
              && error == CapacityExceeded
              && var name := NameOf(item.id.Space(), key);
                 RoomFor(start, name, powers) < |Missing(start, items + [item], name, powers, hash)|
  {
    hide *;
    var name := NameOf(item.id.Space(), key);
    var now := StageAll(start, items, powers, hash).disk;
    var placed := BatchCost(start, items, name, powers, hash);
    UnseenIsUnasked(start, items, item, key, powers, hash);
    KeyIs(item, key, hash);
    StorablePart(start, items, item, hash);
    FoundAgrees(start, now, placed, item, key, powers, hash);
    RefusedExactly(now, item, key, powers, hash);
    if PlaceOne(now, item, key, powers, hash) == Refuses(CapacityExceeded) {
      NoRoomLeft(start, now, placed, items, item, key, powers, hash);
    }
  }

  lemma KeyIs(item: Item, key: Key, hash: Hash)
    requires hash(item.id) == Some(key)
    ensures KeyOf(item, hash) == key && SeenKeyOf(item, hash) == Some(SeenKey(item.id.Space(), key))
  {
  }

  lemma UnseenIsUnasked(start: Disk, items: seq<Item>, item: Item, key: Key, powers: seq<nat>, hash: Hash)
    requires Lawful(start, powers, hash) && Usable(powers) && StageAll(start, items, powers, hash).Kept?
    requires hash(item.id) == Some(key)
    requires SeenKey(item.id.Space(), key) !in StageAll(start, items, powers, hash).seen
    ensures forall j :: 0 <= j < |items| ==> SeenKeyOf(items[j], hash) != SeenKeyOf(item, hash)
    ensures key !in KeysOf(items, NameOf(item.id.Space(), key), hash)
  {
    hide Lawful, Lookup, StageAll, Grows, SeenAreBound, FirstsBound, CapsulesFrom, KeysOf;
    KeptMeans(start, items, powers, hash);
    if key in KeysOf(items, NameOf(item.id.Space(), key), hash) {
      var j := ChainOfKey(items, NameOf(item.id.Space(), key), key, hash);
    }
  }

  lemma NoRoomLeft(start: Disk, now: Disk, placed: set<Key>, items: seq<Item>, item: Item, key: Key, powers: seq<nat>,
      hash: Hash)
    requires Cost(start, now, NameOf(item.id.Space(), key), placed, powers, hash) && hash(item.id) == Some(key)
    requires placed <= KeysOf(items, NameOf(item.id.Space(), key), hash)
    requires key !in KeysOf(items, NameOf(item.id.Space(), key), hash)
    requires Lookup(now, powers, hash, item.id.Space(), key) == None
    requires RoomFor(now, NameOf(item.id.Space(), key), powers) == 0
    ensures var name := NameOf(item.id.Space(), key);
            RoomFor(start, name, powers) < |Missing(start, items + [item], name, powers, hash)|
  {
    hide Lawful, Lookup, Grows, KeysOf, SlotsTaken, Room;
    var name := NameOf(item.id.Space(), key);
    var more := items + [item];
    KeysOfPart(items, more, name, hash);
    assert more[|items|] == item;
    KeyIn(more, |items|, name, hash);
    if Lookup(start, powers, hash, item.id.Space(), key).Some? {
      LookupIsStable(start, now, powers, hash, item.id.Space(), key);
    }
    SubsetSize(placed + {key}, Missing(start, more, name, powers, hash));
    assert |placed + {key}| == |placed| + 1;
  }

  /**
   On any disk, crashed or not: a batch whose rows have keys and agree with each other and with every slot is kept if
   each chain has room for what is missing there; and if it fails, it fails for want of room.
   */
  lemma {:induction false} RoomSuffices(start: Disk, items: seq<Item>, powers: seq<nat>, hash: Hash)
    requires Lawful(start, powers, hash) && Usable(powers) && Storable(start, items, hash)
    ensures match StageAll(start, items, powers, hash)
            case Kept(_, _) => true
            case Fails(error) =>
              && error == CapacityExceeded
              && exists name :: RoomFor(start, name, powers) < |Missing(start, items, name, powers, hash)|
  {
    hide Lawful, StageOne, Storable, Missing, RoomFor;
    if items != [] {
      var init, last := items[..|items| - 1], items[|items| - 1];
      assert init + [last] == items;
      StorablePart(start, init, last, hash);
      RoomSuffices(start, init, powers, hash);
      match StageAll(start, init, powers, hash)
      case Kept(_, _) => RowIsKept(start, init, last, powers, hash);
      case Fails(_) =>
        var name :| RoomFor(start, name, powers) < |Missing(start, init, name, powers, hash)|;
        MoreMissing(start, init, items, name, powers, hash);
    }
  }

  lemma MoreMissing(disk: Disk, items: seq<Item>, more: seq<Item>, name: ChainName, powers: seq<nat>, hash: Hash)
    requires Lawful(disk, powers, hash) && forall item :: item in items ==> item in more
    ensures |Missing(disk, items, name, powers, hash)| <= |Missing(disk, more, name, powers, hash)|
  {
    hide Lawful, Lookup, KeysOf;
    KeysOfPart(items, more, name, hash);
    SubsetSize(Missing(disk, items, name, powers, hash), Missing(disk, more, name, powers, hash));
  }

  // ----- the exact condition on a disk that hides nothing -----

  /** Every slot of every chain is where a reader finds its key. */
  ghost predicate HidesNothing(disk: Disk, powers: seq<nat>, hash: Hash)
    requires Lawful(disk, powers, hash)
  {
    match disk
    case Disk(chains, _) => forall name :: name in chains ==> Unhidden(chains[name], powers)
  }

  ghost predicate Unhidden(chain: Chain<int>, powers: seq<nat>) { Shaped(chain, powers) && Reachable(chain, powers) }

  /** The rows have keys, rows of one key have one binding, and no first row of a key contradicts what is found. */
  ghost predicate Uncontradicted(disk: Disk, items: seq<Item>, powers: seq<nat>, hash: Hash)
    requires Lawful(disk, powers, hash)
  {
    && (forall j :: 0 <= j < |items| ==> SeenKeyOf(items[j], hash).Some?)
    && (forall j, k :: 0 <= j < |items| && 0 <= k < |items| && SeenKeyOf(items[j], hash) == SeenKeyOf(items[k], hash)
         ==> items[j].binding == items[k].binding)
    && (forall j :: 0 <= j < |items| && FirstOfKey(items, j, hash) && hash(items[j].id).Some? ==>
         Lookup(disk, powers, hash, items[j].id.Space(), KeyOf(items[j], hash)) in {None, Some(items[j])})
  }

  lemma FoundIsTheSlot(disk: Disk, space: Namespace, key: Key, powers: seq<nat>, hash: Hash)
    requires Lawful(disk, powers, hash) && HidesNothing(disk, powers, hash)
    ensures var chain := ChainAt(disk.chains, NameOf(space, key));
            && (HasSlot(chain, key) ==> Lookup(disk, powers, hash, space, key).Some?)
            && forall i, s :: 0 <= i < |chain| && 0 <= s < |chain[i].slots| && HoldsKey(chain[i].slots[s], key) ==>
                 && 0 <= chain[i].slots[s].payload < |disk.capsules|
                 && disk.capsules[chain[i].slots[s].payload].Whole?
                 && Lookup(disk, powers, hash, space, key)
                    == Some(disk.capsules[chain[i].slots[s].payload].item)
  {
    hide ProbeFrom, HoldsKeys, LawfulStates, Routed, Seek, LawfulChain, Lawful, PointsRight, AllPointRight;
    var name := NameOf(space, key);
    var chain := ChainAt(disk.chains, name);
    if name in disk.chains {
      assert Unhidden(disk.chains[name], powers);
      forall i, s | 0 <= i < |chain| && 0 <= s < |chain[i].slots| && HoldsKey(chain[i].slots[s], key)
        ensures && 0 <= chain[i].slots[s].payload < |disk.capsules|
                && disk.capsules[chain[i].slots[s].payload].Whole?
                && Lookup(disk, powers, hash, space, key) == Some(disk.capsules[chain[i].slots[s].payload].item)
      {
        SlotFound(disk, space, key, i, s, powers, hash);
      }
      if HasSlot(chain, key) {
        var i, s :| 0 <= i < |chain| && 0 <= s < |chain[i].slots| && chain[i].slots[s].Used?
                    && chain[i].slots[s].key == key;
        assert HoldsKey(chain[i].slots[s], key);
      }
    }
  }

  lemma SlotFound(disk: Disk, space: Namespace, key: Key, level: nat, slot: nat, powers: seq<nat>, hash: Hash)
    requires Lawful(disk, powers, hash) && NameOf(space, key) in disk.chains
    requires var chain := disk.chains[NameOf(space, key)];
             && Unhidden(chain, powers) && level < |chain| && slot < |chain[level].slots|
             && HoldsKey(chain[level].slots[slot], key)
    ensures var chain := disk.chains[NameOf(space, key)];
            && 0 <= chain[level].slots[slot].payload < |disk.capsules|
            && disk.capsules[chain[level].slots[slot].payload].Whole?
            && Lookup(disk, powers, hash, space, key)
               == Some(disk.capsules[chain[level].slots[slot].payload].item)
  {
    hide ProbeFrom, HoldsKeys, LawfulStates, Routed;
    assert AllPointRight(disk.chains[NameOf(space, key)][level].slots, NameOf(space, key), disk.capsules, hash);
  }

  lemma UncontradictedIsStorable(disk: Disk, items: seq<Item>, powers: seq<nat>, hash: Hash)
    requires Lawful(disk, powers, hash) && HidesNothing(disk, powers, hash)
    requires Uncontradicted(disk, items, powers, hash)
    ensures Storable(disk, items, hash)
  {
    hide Lawful, HidesNothing, Lookup;
    forall j | 0 <= j < |items| && FirstOfKey(items, j, hash) && hash(items[j].id).Some?
      ensures AgreesOn(disk, items[j], KeyOf(items[j], hash))
    {
      FoundIsTheSlot(disk, items[j].id.Space(), KeyOf(items[j], hash), powers, hash);
    }
  }

  lemma KeptIsUncontradicted(start: Disk, items: seq<Item>, powers: seq<nat>, hash: Hash)
    requires Lawful(start, powers, hash) && Usable(powers) && StageAll(start, items, powers, hash).Kept?
    ensures Uncontradicted(start, items, powers, hash)
  {
    hide Lawful, Lookup, StageAll, Grows, SeenAreBound, CapsulesFrom;
    var kept := StageAll(start, items, powers, hash);
    KeptMeans(start, items, powers, hash);
    forall j | 0 <= j < |items| && FirstOfKey(items, j, hash) && hash(items[j].id).Some?
      ensures Lookup(start, powers, hash, items[j].id.Space(), KeyOf(items[j], hash)) in {None, Some(items[j])}
    {
      KeyIs(items[j], KeyOf(items[j], hash), hash);
      if Lookup(start, powers, hash, items[j].id.Space(), KeyOf(items[j], hash)).Some? {
        LookupIsStable(start, kept.disk, powers, hash, items[j].id.Space(), KeyOf(items[j], hash));
      }
    }
  }

  lemma MissingIsSlotless(disk: Disk, items: seq<Item>, name: ChainName, powers: seq<nat>, hash: Hash)
    requires Lawful(disk, powers, hash) && HidesNothing(disk, powers, hash)
    ensures Missing(disk, items, name, powers, hash) == Slotless(disk, items, name, hash)
  {
    hide Lawful, HidesNothing, Lookup, KeysOf, HasSlot;
    forall key | key in KeysOf(items, name, hash)
      ensures Lookup(disk, powers, hash, name.space, key).None? <==> !HasSlot(ChainAt(disk.chains, name), key)
    {
      var j := ChainOfKey(items, name, key, hash);
      FoundIsTheSlot(disk, name.space, key, powers, hash);
      if Lookup(disk, powers, hash, name.space, key).Some? { FoundHasSlot(disk, name.space, key, powers, hash); }
    }
  }

  /** Exactly when a batch is kept, on a disk that hides nothing: no contradiction, and room for what is missing. */
  lemma KeptExactly(start: Disk, items: seq<Item>, powers: seq<nat>, hash: Hash)
    requires Lawful(start, powers, hash) && Usable(powers) && HidesNothing(start, powers, hash)
    ensures StageAll(start, items, powers, hash).Kept?
       <==> && Uncontradicted(start, items, powers, hash)
            && forall name :: |Missing(start, items, name, powers, hash)| <= RoomFor(start, name, powers)
  {
    hide Lawful, StageAll, HidesNothing, Uncontradicted, Missing, Slotless, RoomFor;
    if StageAll(start, items, powers, hash).Kept? {
      KeptIsUncontradicted(start, items, powers, hash);
      forall name ensures |Missing(start, items, name, powers, hash)| <= RoomFor(start, name, powers) {
        KeptNeedsRoom(start, items, name, powers, hash);
        MissingIsSlotless(start, items, name, powers, hash);
      }
    }
    if Uncontradicted(start, items, powers, hash) {
      UncontradictedIsStorable(start, items, powers, hash);
      RoomSuffices(start, items, powers, hash);
    }
  }

  lemma CleanHidesNothing(disk: Disk, powers: seq<nat>, hash: Hash)
    requires Lawful(disk, powers, hash) && CleanDisk(disk, powers)
    ensures HidesNothing(disk, powers, hash)
  {
    hide Reachable;
  }

  // ----- rows that agree with a disk, and keep agreeing -----

  /** The rows have keys, a key names one row, and every slot of a row's key holds that row. */
  ghost predicate Agrees(disk: Disk, items: seq<Item>, hash: Hash) {
    && Keyed(items, hash)
    && forall item :: item in items ==> AgreesOn(disk, item, KeyOf(item, hash))
  }

  ghost predicate Keyed(items: seq<Item>, hash: Hash) {
    && (forall item :: item in items ==> hash(item.id).Some?)
    && (forall a, b :: a in items && b in items && a.id.Space() == b.id.Space() && hash(a.id) == hash(b.id) ==> a == b)
  }

  lemma AgreesIsStorable(disk: Disk, items: seq<Item>, all: seq<Item>, hash: Hash)
    requires Agrees(disk, all, hash) && forall item :: item in items ==> item in all
    ensures Storable(disk, items, hash)
  {
    hide AgreesOn;
    forall j | 0 <= j < |items| ensures items[j] in all && SeenKeyOf(items[j], hash).Some? { assert items[j] in items; }
  }

  /** On a disk that hides nothing, agreeing is to contradict no answer. */
  lemma AgreesWhen(disk: Disk, items: seq<Item>, powers: seq<nat>, hash: Hash)
    requires Lawful(disk, powers, hash) && HidesNothing(disk, powers, hash) && Keyed(items, hash)
    requires forall item :: item in items ==>
               Lookup(disk, powers, hash, item.id.Space(), KeyOf(item, hash)) in {None, Some(item)}
    ensures Agrees(disk, items, hash)
  {
    hide Lawful, HidesNothing, Lookup;
    forall item | item in items ensures AgreesOn(disk, item, KeyOf(item, hash)) {
      FoundIsTheSlot(disk, item.id.Space(), KeyOf(item, hash), powers, hash);
    }
  }

  /** A slot a batch took holds a row of the batch with the slot's key. */
  lemma NewSlotHolds(start: Disk, now: Disk, items: seq<Item>, name: ChainName, placed: set<Key>, level: nat, slot: nat,
      powers: seq<nat>, hash: Hash) returns (item: Item)
    requires Cost(start, now, name, placed, powers, hash) && CapsulesFrom(start.capsules, now.capsules, items)
    requires name in now.chains && level < |now.chains[name]| && slot < |now.chains[name][level].slots|
    requires var used := now.chains[name][level].slots[slot]; used.Used? && used.payload >= |start.capsules|
    ensures var used := now.chains[name][level].slots[slot];
            && used.payload < |now.capsules| && now.capsules[used.payload] == Whole(item)
            && item in items && hash(item.id) == Some(used.key) && item.id.Space() == name.space
  {
    hide ProbeFrom, HoldsKeys, LawfulStates, Routed, Room, Grows, Lookup, SlotsTaken;
    LawfulIsOrderly(now, name, powers, hash);
    var used := now.chains[name][level].slots[slot];
    assert AllPointRight(now.chains[name][level].slots, name, now.capsules, hash);
    assert PointsRight(used, name, now.capsules, hash);
    item := now.capsules[used.payload].item;
  }

  lemma StagingAgreesOn(start: Disk, now: Disk, items: seq<Item>, all: seq<Item>, row: Item, placed: set<Key>,
      powers: seq<nat>, hash: Hash)
    requires Agrees(start, all, hash) && row in all && forall item :: item in items ==> item in all
    requires Cost(start, now, NameOf(row.id.Space(), KeyOf(row, hash)), placed, powers, hash)
    requires CapsulesFrom(start.capsules, now.capsules, items)
    ensures AgreesOn(now, row, KeyOf(row, hash))
  {
    hide Lawful, Room, Lookup;
    var key := KeyOf(row, hash);
    var name := NameOf(row.id.Space(), key);
    var before, chain := ChainAt(start.chains, name), ChainAt(now.chains, name);
    assert AgreesOn(start, row, key);
    forall i, s | 0 <= i < |chain| && 0 <= s < |chain[i].slots| && HoldsKey(chain[i].slots[s], key)
      ensures 0 <= chain[i].slots[s].payload < |now.capsules| && now.capsules[chain[i].slots[s].payload] == Whole(row)
    {
      if i < |before| && s < |before[i].slots| && chain[i].slots[s] == before[i].slots[s] {
        assert HoldsKey(before[i].slots[s], key);
      } else {
        var item := NewSlotHolds(start, now, items, name, placed, i, s, powers, hash);
        assert item in all;
      }
    }
  }

  /** Staging rows of a set that agrees with the disk keeps the set in agreement. */
  lemma StagingAgrees(start: Disk, items: seq<Item>, all: seq<Item>, powers: seq<nat>, hash: Hash)
    requires Lawful(start, powers, hash) && Usable(powers) && StageAll(start, items, powers, hash).Kept?
    requires Agrees(start, all, hash) && forall item :: item in items ==> item in all
    ensures Agrees(StageAll(start, items, powers, hash).disk, all, hash)
  {
    hide Lawful, Cost, StageAll, AgreesOn, Grows, Dealt, SeenAreBound, FirstsBound, CapsulesFrom;
    var kept := StageAll(start, items, powers, hash);
    KeptMeans(start, items, powers, hash);
    forall row | row in all ensures AgreesOn(kept.disk, row, KeyOf(row, hash)) {
      var placed := BatchCost(start, items, NameOf(row.id.Space(), KeyOf(row, hash)), powers, hash);
      StagingAgreesOn(start, kept.disk, items, all, row, placed, powers, hash);
    }
  }

  // ----- what a crash leaves -----

  /** What a crash leaves has at least the room of what the batch saw. */
  lemma CrashKeepsRoom(start: Disk, view: Disk, image: Disk, landed: set<(ChainName, Address)>, name: ChainName,
      powers: seq<nat>, hash: Hash)
    requires Lawful(start, powers, hash) && Lawful(view, powers, hash) && Grows(start, view)
    requires CrashOf(start, view, image, landed)
    ensures RoomFor(image, name, powers) >= RoomFor(view, name, powers)
  {
    hide Lawful, LevelRoom;
    if name in view.chains {
      LawfulIsOrderly(view, name, powers, hash);
      RoomIsNoLess(view.chains[name], image.chains[name], powers, |powers|, ChainAt(start.chains, name),
        PartOf(landed, name));
    }
  }

  lemma {:induction false} RoomIsNoLess(view: Chain<int>, image: Chain<int>, powers: seq<nat>, n: nat,
      start: Chain<int>, landed: set<Address>)
    requires n <= |powers| && CrashChain(start, view, image, landed)
    requires ChainGrows(start, view) && SlotsKept(start, view)
    ensures Room(image, powers, n) >= Room(view, powers, n)
  {
    hide LevelRoom, CrashChain, ChainGrows, SlotsKept;
    if n > 0 {
      RoomIsNoLess(view, image, powers, n - 1, start, landed);
      LevelRoomIsNoLess(view, image, powers, n - 1, start, landed);
    }
  }

  lemma LevelRoomIsNoLess(view: Chain<int>, image: Chain<int>, powers: seq<nat>, i: nat, start: Chain<int>,
      landed: set<Address>)
    requires i < |powers| && CrashChain(start, view, image, landed)
    requires ChainGrows(start, view) && SlotsKept(start, view)
    ensures LevelRoom(image, powers, i) >= LevelRoom(view, powers, i)
  {
    hide Threshold, Pow2;
    if i < |view| {
      assert CrashLevel(start, view[i], image[i], i, landed);
      forall s | s in Occupied(image[i].slots) ensures s in Occupied(view[i].slots) {
        KeptSlot(start, view, image, i, s, landed);
      }
      SubsetSize(Occupied(image[i].slots), Occupied(view[i].slots));
      OccupiedBound(view[i].slots);
      OccupiedBound(image[i].slots);
    }
  }

  /** A taken slot of the image is the slot the batch saw there. */
  lemma KeptSlot(start: Chain<int>, view: Chain<int>, image: Chain<int>, i: nat, s: nat, landed: set<Address>)
    requires CrashChain(start, view, image, landed) && ChainGrows(start, view) && SlotsKept(start, view)
    requires i < |image| && s < |image[i].slots| && image[i].slots[s].Used?
    ensures i < |view| && s < |view[i].slots| && view[i].slots[s] == image[i].slots[s]
    ensures Address(i, s) in landed || (i < |start| && s < |start[i].slots| && start[i].slots[s] == image[i].slots[s])
  {
    assert CrashLevel(start, view[i], image[i], i, landed);
    assert image[i].slots[s] == LandedSlot(start, view[i].slots[s], Address(i, s), landed);
    if i < |start| { assert LevelKept(start[i].slots, view[i].slots); }
  }

  /** Rows that agree with what a batch saw agree with what a crash leaves of it. */
  lemma CrashAgrees(start: Disk, view: Disk, image: Disk, landed: set<(ChainName, Address)>, all: seq<Item>,
      powers: seq<nat>, hash: Hash)
    requires Lawful(start, powers, hash) && Grows(start, view) && CrashOf(start, view, image, landed)
    requires Agrees(view, all, hash)
    ensures Agrees(image, all, hash)
  {
    hide Lawful, AgreesOn, Grows, CrashOf;
    forall row | row in all ensures AgreesOn(image, row, KeyOf(row, hash)) {
      CrashAgreesOn(start, view, image, landed, row, KeyOf(row, hash), powers, hash);
    }
  }

  lemma CrashAgreesOn(start: Disk, view: Disk, image: Disk, landed: set<(ChainName, Address)>, row: Item, key: Key,
      powers: seq<nat>, hash: Hash)
    requires Lawful(start, powers, hash) && Grows(start, view) && CrashOf(start, view, image, landed)
    requires AgreesOn(view, row, key)
    ensures AgreesOn(image, row, key)
  {
    hide Lawful, ChainGrows, SlotsKept, CrashChain;
    var name := NameOf(row.id.Space(), key);
    var before, seen, chain := ChainAt(start.chains, name), ChainAt(view.chains, name), ChainAt(image.chains, name);
    forall i, s | 0 <= i < |chain| && 0 <= s < |chain[i].slots| && HoldsKey(chain[i].slots[s], key)
      ensures 0 <= chain[i].slots[s].payload < |image.capsules|
              && image.capsules[chain[i].slots[s].payload] == Whole(row)
    {
      EmptyGrows(seen);
      KeptSlot(before, seen, chain, i, s, PartOf(landed, name));
      assert HoldsKey(seen[i].slots[s], key);
      if Address(i, s) !in PartOf(landed, name) {
        StartSlotPoints(start, name, i, s, powers, hash);
      } else {
        assert landed != {};
      }
    }
  }

  lemma EmptyGrows(chain: Chain<int>)
    ensures ChainGrows([], chain) && SlotsKept([], chain)
  {
  }

  lemma StartSlotPoints(disk: Disk, name: ChainName, level: nat, slot: nat, powers: seq<nat>, hash: Hash)
    requires Lawful(disk, powers, hash)
    requires var chain := ChainAt(disk.chains, name);
             level < |chain| && slot < |chain[level].slots| && chain[level].slots[slot].Used?
    ensures 0 <= ChainAt(disk.chains, name)[level].slots[slot].payload < |disk.capsules|
  {
    hide ProbeFrom, HoldsKeys, LawfulStates, Routed;
    LawfulIsOrderly(disk, name, powers, hash);
    assert AllPointRight(ChainAt(disk.chains, name)[level].slots, name, disk.capsules, hash);
    assert PointsRight(ChainAt(disk.chains, name)[level].slots[slot], name, disk.capsules, hash);
  }

  // ----- a call of several batches -----

  /** Batches stored one after the other. */
  ghost function StoreAll(disk: Disk, batches: seq<seq<Item>>, powers: seq<nat>, hash: Hash): (placing: Placing)
    requires Lawful(disk, powers, hash) && Usable(powers)
    ensures placing.Takes? ==> Lawful(placing.disk, powers, hash)
  {
    if batches == [] then Takes(disk)
    else
      match StoreAll(disk, batches[..|batches| - 1], powers, hash)
      case Refuses(error) => Refuses(error)
      case Takes(now) =>
        match StageAll(now, batches[|batches| - 1], powers, hash)
        case Fails(error) => Refuses(error)
        case Kept(after, _) => Takes(after)
  }

  /** The batches consist of rows of `all`. */
  ghost predicate Within(batches: seq<seq<Item>>, all: seq<Item>) {
    forall k, item :: 0 <= k < |batches| && item in batches[k] ==> item in all
  }

  lemma StageGrows(start: Disk, items: seq<Item>, powers: seq<nat>, hash: Hash)
    requires Lawful(start, powers, hash) && Usable(powers) && StageAll(start, items, powers, hash).Kept?
    ensures Grows(start, StageAll(start, items, powers, hash).disk)
  {
    hide Lawful, Grows, StageAll, Dealt, SeenAreBound, FirstsBound, CapsulesFrom;
    KeptMeans(start, items, powers, hash);
  }

  /** What `now` has over `start`, for the rows of a call: it is in agreement with them and no worse off for room. */
  ghost predicate Onward(start: Disk, now: Disk, all: seq<Item>, powers: seq<nat>, hash: Hash) {
    && Lawful(start, powers, hash) && Lawful(now, powers, hash) && Grows(start, now)
    && (Agrees(start, all, hash) ==> Agrees(now, all, hash))
    && forall name :: InSlack(start, now, all, name, powers, hash)
  }

  ghost predicate InSlack(start: Disk, now: Disk, all: seq<Item>, name: ChainName, powers: seq<nat>, hash: Hash)
    requires Lawful(start, powers, hash) && Lawful(now, powers, hash)
  {
    && RoomFor(now, name, powers) - |Missing(now, all, name, powers, hash)|
       >= RoomFor(start, name, powers) - |Missing(start, all, name, powers, hash)|
    && RoomFor(now, name, powers) - |Slotless(now, all, name, hash)|
       <= RoomFor(start, name, powers) - |Slotless(start, all, name, hash)|
  }

  lemma NoStep(disk: Disk, all: seq<Item>, powers: seq<nat>, hash: Hash)
    requires Lawful(disk, powers, hash)
    ensures Onward(disk, disk, all, powers, hash)
  {
    hide Lawful, RoomFor, Missing, Slotless, Agrees;
    NothingChanged(disk);
  }

  lemma OneStep(start: Disk, mid: Disk, items: seq<Item>, all: seq<Item>, powers: seq<nat>, hash: Hash)
    requires Onward(start, mid, all, powers, hash) && Usable(powers)
    requires StageAll(mid, items, powers, hash).Kept? && forall item :: item in items ==> item in all
    ensures Onward(start, StageAll(mid, items, powers, hash).disk, all, powers, hash)
  {
    hide Lawful, RoomFor, Missing, Slotless, Agrees, StageAll, Grows;
    var now := StageAll(mid, items, powers, hash).disk;
    StageGrows(mid, items, powers, hash);
    GrowsTransitive(start, mid, now);
    if Agrees(start, all, hash) { StagingAgrees(mid, items, all, powers, hash); }
    forall name ensures InSlack(start, now, all, name, powers, hash) {
      assert InSlack(start, mid, all, name, powers, hash);
      SlackStays(mid, items, all, name, powers, hash);
    }
  }

  lemma {:induction false} StoreKeeps(start: Disk, batches: seq<seq<Item>>, all: seq<Item>, powers: seq<nat>,
      hash: Hash)
    requires Lawful(start, powers, hash) && Usable(powers) && Within(batches, all)
    requires StoreAll(start, batches, powers, hash).Takes?
    ensures Onward(start, StoreAll(start, batches, powers, hash).disk, all, powers, hash)
  {
    hide Lawful, Onward, StageAll;
    if batches == [] {
      NoStep(start, all, powers, hash);
    } else {
      var init, last := batches[..|batches| - 1], batches[|batches| - 1];
      StoreKeeps(start, init, all, powers, hash);
      OneStep(start, StoreAll(start, init, powers, hash).disk, last, all, powers, hash);
    }
  }

  ghost predicate HasRoom(disk: Disk, all: seq<Item>, powers: seq<nat>, hash: Hash)
    requires Lawful(disk, powers, hash)
  {
    forall name :: |Missing(disk, all, name, powers, hash)| <= RoomFor(disk, name, powers)
  }

  /** One batch of a call whose rows agree with the disk: stored if there is room, else refused for want of room. */
  lemma BatchSuffices(start: Disk, now: Disk, items: seq<Item>, all: seq<Item>, powers: seq<nat>, hash: Hash)
    requires Onward(start, now, all, powers, hash) && Usable(powers) && Agrees(start, all, hash)
    requires forall item :: item in items ==> item in all
    ensures match StageAll(now, items, powers, hash)
            case Kept(_, _) => true
            case Fails(error) => error == CapacityExceeded && !HasRoom(start, all, powers, hash)
  {
    hide Lawful, RoomFor, Missing, Slotless, Agrees, StageAll, Grows, Storable;
    AgreesIsStorable(now, items, all, hash);
    RoomSuffices(now, items, powers, hash);
    if StageAll(now, items, powers, hash).Fails? {
      var name :| RoomFor(now, name, powers) < |Missing(now, items, name, powers, hash)|;
      MoreMissing(now, items, all, name, powers, hash);
      assert InSlack(start, now, all, name, powers, hash);
    }
  }

  /** A call whose rows agree with the disk: stored if there is room for all that is missing. */
  lemma {:induction false} CallSuffices(start: Disk, batches: seq<seq<Item>>, all: seq<Item>, powers: seq<nat>,
      hash: Hash)
    requires Lawful(start, powers, hash) && Usable(powers) && Within(batches, all) && Agrees(start, all, hash)
    ensures match StoreAll(start, batches, powers, hash)
            case Takes(_) => true
            case Refuses(error) => error == CapacityExceeded && !HasRoom(start, all, powers, hash)
  {
    hide Lawful, Onward, StageAll, Agrees, HasRoom;
    if batches != [] {
      var init, last := batches[..|batches| - 1], batches[|batches| - 1];
      CallSuffices(start, init, all, powers, hash);
      if StoreAll(start, init, powers, hash).Takes? {
        StoreKeeps(start, init, all, powers, hash);
        BatchSuffices(start, StoreAll(start, init, powers, hash).disk, last, all, powers, hash);
      }
    }
  }

  lemma {:induction false} StoredHasSlots(start: Disk, batches: seq<seq<Item>>, name: ChainName, key: Key, k: nat,
      powers: seq<nat>, hash: Hash)
    requires Lawful(start, powers, hash) && Usable(powers) && StoreAll(start, batches, powers, hash).Takes?
    requires k < |batches| && key in KeysOf(batches[k], name, hash)
    ensures Lookup(StoreAll(start, batches, powers, hash).disk, powers, hash, name.space, key).Some?
  {
    hide Lawful, StageAll, Lookup, KeysOf, Grows;
    var init, last := batches[..|batches| - 1], batches[|batches| - 1];
    var mid := StoreAll(start, init, powers, hash).disk;
    if k < |init| {
      StoredHasSlots(start, init, name, key, k, powers, hash);
      StageGrows(mid, last, powers, hash);
      LookupIsStable(mid, StageAll(mid, last, powers, hash).disk, powers, hash, name.space, key);
    } else {
      NothingMissing(mid, last, name, powers, hash);
      assert key !in Missing(StageAll(mid, last, powers, hash).disk, last, name, powers, hash);
    }
  }

  /** A call that was stored had room for every key of its own that had no slot. */
  lemma CallNeedsRoom(start: Disk, batches: seq<seq<Item>>, all: seq<Item>, name: ChainName, powers: seq<nat>,
      hash: Hash)
    requires Lawful(start, powers, hash) && Usable(powers) && StoreAll(start, batches, powers, hash).Takes?
    requires Within(batches, all) && forall item :: item in all ==> exists k :: 0 <= k < |batches| && item in batches[k]
    ensures |Slotless(start, all, name, hash)| <= RoomFor(start, name, powers)
  {
    hide Lawful, StoreAll, Lookup, KeysOf, Grows, Agrees, HasSlot, RoomFor, Missing;
    var now := StoreAll(start, batches, powers, hash).disk;
    StoreKeeps(start, batches, all, powers, hash);
    assert InSlack(start, now, all, name, powers, hash);
    forall key | key in KeysOf(all, name, hash) ensures HasSlot(ChainAt(now.chains, name), key) {
      var j := ChainOfKey(all, name, key, hash);
      assert all[j] in all;
      var k :| 0 <= k < |batches| && all[j] in batches[k];
      var i :| 0 <= i < |batches[k]| && batches[k][i] == all[j];
      KeyIs(all[j], key, hash);
      KeyIn(batches[k], i, name, hash);
      StoredHasSlots(start, batches, name, key, k, powers, hash);
      FoundHasSlot(now, name.space, key, powers, hash);
    }
    assert Slotless(now, all, name, hash) == {};
  }

  /** On a disk that hides nothing, a call whose rows agree with it is stored exactly when there is room. */
  lemma StoredExactly(start: Disk, batches: seq<seq<Item>>, all: seq<Item>, powers: seq<nat>, hash: Hash)
    requires Lawful(start, powers, hash) && Usable(powers) && HidesNothing(start, powers, hash)
    requires Within(batches, all) && forall item :: item in all ==> exists k :: 0 <= k < |batches| && item in batches[k]
    requires Agrees(start, all, hash)
    ensures StoreAll(start, batches, powers, hash).Takes? <==> HasRoom(start, all, powers, hash)
  {
    hide Lawful, StoreAll, Agrees, HidesNothing, Missing, Slotless, RoomFor, Within;
    CallSuffices(start, batches, all, powers, hash);
    if StoreAll(start, batches, powers, hash).Takes? {
      forall name ensures |Missing(start, all, name, powers, hash)| <= RoomFor(start, name, powers) {
        CallNeedsRoom(start, batches, all, name, powers, hash);
        MissingIsSlotless(start, all, name, powers, hash);
      }
    }
  }

  /** A crash of a batch after `n` of its rows, letting through the slots in `landed`. */
  ghost predicate CutAt(start: Disk, image: Disk, items: seq<Item>, n: nat, landed: set<(ChainName, Address)>,
      powers: seq<nat>, hash: Hash) {
    && Lawful(start, powers, hash) && Usable(powers) && n <= |items|
    && StageAll(start, items[..n], powers, hash).Kept?
    && CrashOf(start, StageAll(start, items[..n], powers, hash).disk, image, landed)
  }

  /** A crash of a call in batch `k`. */
  ghost predicate LeftAt(start: Disk, image: Disk, batches: seq<seq<Item>>, k: nat, n: nat,
      landed: set<(ChainName, Address)>, powers: seq<nat>, hash: Hash) {
    && Lawful(start, powers, hash) && Usable(powers) && k < |batches|
    && StoreAll(start, batches[..k], powers, hash).Takes?
    && CutAt(StoreAll(start, batches[..k], powers, hash).disk, image, batches[k], n, landed, powers, hash)
  }

  /**
   A crash takes no more room than the call missed keys, and what it leaves agrees with the call's rows as what it
   found did: this is what makes putting the call again possible.
   */
  lemma CrashTakesNoMore(start: Disk, image: Disk, batches: seq<seq<Item>>, k: nat, n: nat,
      landed: set<(ChainName, Address)>, all: seq<Item>, powers: seq<nat>, hash: Hash)
    requires LeftAt(start, image, batches, k, n, landed, powers, hash) && Within(batches, all)
    requires Lawful(image, powers, hash) && Grows(start, image)
    ensures Agrees(start, all, hash) ==> Agrees(image, all, hash)
    ensures TookNoMore(start, image, all, powers, hash)
  {
    hide Lawful, StoreAll, StageAll, Agrees, Missing, Slotless, RoomFor, Grows, CrashOf, TookNoMore;
    var mid := StoreAll(start, batches[..k], powers, hash).disk;
    var part := batches[k][..n];
    var view := StageAll(mid, part, powers, hash).disk;
    StoreKeeps(start, batches[..k], all, powers, hash);
    OneStep(start, mid, part, all, powers, hash);
    StageGrows(mid, part, powers, hash);
    CutTakesNoMore(start, mid, view, image, landed, all, powers, hash);
  }

  /** A crash took no more room than the rows missed before, and nothing that was found is missing. */
  ghost predicate TookNoMore(start: Disk, image: Disk, all: seq<Item>, powers: seq<nat>, hash: Hash) {
    && Lawful(start, powers, hash) && Lawful(image, powers, hash)
    && forall name ::
         && RoomFor(image, name, powers) + |Missing(start, all, name, powers, hash)| >= RoomFor(start, name, powers)
         && |Missing(image, all, name, powers, hash)| <= |Missing(start, all, name, powers, hash)|
  }

  /** A crash of a batch that began at `mid` and had come to see `view`. */
  lemma CutTakesNoMore(start: Disk, mid: Disk, view: Disk, image: Disk, landed: set<(ChainName, Address)>,
      all: seq<Item>, powers: seq<nat>, hash: Hash)
    requires Onward(start, view, all, powers, hash) && Lawful(mid, powers, hash) && Grows(mid, view)
    requires CrashOf(mid, view, image, landed) && Lawful(image, powers, hash) && Grows(start, image)
    ensures Agrees(start, all, hash) ==> Agrees(image, all, hash)
    ensures TookNoMore(start, image, all, powers, hash)
  {
    hide Lawful, Agrees, Missing, Slotless, RoomFor, Grows, CrashOf;
    if Agrees(start, all, hash) { CrashAgrees(mid, view, image, landed, all, powers, hash); }
    forall name
      ensures RoomFor(image, name, powers) + |Missing(start, all, name, powers, hash)| >= RoomFor(start, name, powers)
      ensures |Missing(image, all, name, powers, hash)| <= |Missing(start, all, name, powers, hash)|
    {
      assert InSlack(start, view, all, name, powers, hash);
      CrashKeepsRoom(mid, view, image, landed, name, powers, hash);
      MissingFalls(start, image, all, name, powers, hash);
    }
  }

  // ----- putting a call again after crashes -----

  /** Every chain has room for what the rows miss there, `tries` times over. */
  ghost predicate HasRoomFor(disk: Disk, items: seq<Item>, tries: nat, powers: seq<nat>, hash: Hash)
    requires Lawful(disk, powers, hash)
  {
    forall name :: tries * |Missing(disk, items, name, powers, hash)| <= RoomFor(disk, name, powers)
  }

  /** Each of `tries` crashes took no more room than the rows missed at the start. */
  ghost predicate CostsUpTo(start: Disk, now: Disk, items: seq<Item>, tries: nat, powers: seq<nat>, hash: Hash)
    requires Lawful(start, powers, hash) && Lawful(now, powers, hash)
  {
    forall name ::
      && RoomFor(now, name, powers)
         + tries * |Missing(start, items, name, powers, hash)| >= RoomFor(start, name, powers)
      && |Missing(now, items, name, powers, hash)| <= |Missing(start, items, name, powers, hash)|
  }

  lemma NoTriesYet(start: Disk, items: seq<Item>, powers: seq<nat>, hash: Hash)
    requires Lawful(start, powers, hash)
    ensures CostsUpTo(start, start, items, 0, powers, hash)
  {
    hide Lawful, Missing, RoomFor;
  }

  lemma TriesAdd(tries: nat, missing: nat, room: int, now: int, after: int)
    requires now + tries * missing >= room && after + missing >= now
    ensures after + (tries + 1) * missing >= room
  {
  }

  lemma TriesLeft(tries: nat, all: nat, missing: nat, room: int, now: int)
    requires tries < all && all * missing <= room && now + tries * missing >= room
    ensures missing <= now
  {
    TriesDiffer(tries, all, missing);
  }

  lemma TriesDiffer(tries: nat, all: nat, missing: nat)
    requires tries < all
    ensures tries * missing + missing <= all * missing
  {
    assert (all - tries - 1) * missing >= 0;
    assert all * missing == tries * missing + missing + (all - tries - 1) * missing;
  }

  lemma RoomIsLeft(start: Disk, now: Disk, items: seq<Item>, tries: nat, all: nat, powers: seq<nat>, hash: Hash)
    requires Lawful(start, powers, hash) && Lawful(now, powers, hash) && tries < all
    requires CostsUpTo(start, now, items, tries, powers, hash) && HasRoomFor(start, items, all, powers, hash)
    ensures HasRoom(now, items, powers, hash)
  {
    hide Lawful, Missing, RoomFor;
    forall name ensures |Missing(now, items, name, powers, hash)| <= RoomFor(now, name, powers) {
      TriesLeft(tries, all, |Missing(start, items, name, powers, hash)|, RoomFor(start, name, powers),
        RoomFor(now, name, powers));
    }
  }

  /** One more crash. */
  lemma CostsOneMore(start: Disk, before: Disk, after: Disk, items: seq<Item>, tries: nat, powers: seq<nat>,
      hash: Hash)
    requires Lawful(start, powers, hash) && Lawful(before, powers, hash)
    requires CostsUpTo(start, before, items, tries, powers, hash) && TookNoMore(before, after, items, powers, hash)
    ensures Lawful(after, powers, hash) && CostsUpTo(start, after, items, tries + 1, powers, hash)
  {
    hide Lawful, Missing, RoomFor;
    forall name
      ensures && RoomFor(after, name, powers) + (tries + 1) * |Missing(start, items, name, powers, hash)|
                 >= RoomFor(start, name, powers)
              && |Missing(after, items, name, powers, hash)| <= |Missing(start, items, name, powers, hash)|
    {
      TriesAdd(tries, |Missing(start, items, name, powers, hash)|, RoomFor(start, name, powers),
        RoomFor(before, name, powers), RoomFor(after, name, powers));
    }
  }

  // ----- the room a crash takes for good -----

  /** A put on a disk no crash has touched leaves one no crash has touched. */
  lemma PutKeepsClean(disk: Disk, item: Item, key: Key, powers: seq<nat>, hash: Hash)
    requires Lawful(disk, powers, hash) && Usable(powers) && hash(item.id) == Some(key) && CleanDisk(disk, powers)
    requires PlaceOne(disk, item, key, powers, hash).Takes?
    ensures CleanDisk(PlaceOne(disk, item, key, powers, hash).disk, powers)
  {
    hide Lawful, Lookup, Walk, WalkLeaves, Clean, Grows, Orderly, InsertedAt, WithinLoad;
    var name := NameOf(item.id.Space(), key);
    var after := PlaceOne(disk, item, key, powers, hash).disk;
    var route := RouteOf(disk, item.id.Space(), key, powers, hash);
    RouteIsWalk(disk, item.id.Space(), key, powers, hash);
    ChainIsClean(disk, name, powers);
    WalkKeepsClean(ChainAt(disk.chains, name), powers, key);
    PutIsSettled(disk, item, key, powers, hash);
    if route.selection.Open? {
      OpenInserts(disk, item, key, powers, hash);
      OpenPlaces(disk, item, key, powers, hash);
      InsertKeepsClean(disk, after, route.chain, route.selection.level, route.selection.slot, key, item, powers, hash);
    } else {
      forall n | n in after.chains ensures Clean(after.chains[n], powers) {
        if n != name { PutElsewhere(disk, item, key, n, powers, hash); }
      }
    }
  }

  lemma OpenPlaces(disk: Disk, item: Item, key: Key, powers: seq<nat>, hash: Hash)
    requires Lawful(disk, powers, hash) && Usable(powers) && hash(item.id) == Some(key)
    requires RouteOf(disk, item.id.Space(), key, powers, hash).selection.Open?
    ensures var route := RouteOf(disk, item.id.Space(), key, powers, hash);
            PlaceOne(disk, item, key, powers, hash)
            == Takes(Disk(disk.chains[NameOf(item.id.Space(), key) := Settled(route, key, |disk.capsules|)],
                          disk.capsules + [Whole(item)]))
  {
    hide Lawful, Lookup, RouteOf, WalkLeaves;
    var route := RouteOf(disk, item.id.Space(), key, powers, hash);
  }

  lemma ChainIsClean(disk: Disk, name: ChainName, powers: seq<nat>)
    requires CleanDisk(disk, powers)
    ensures Clean(ChainAt(disk.chains, name), powers)
  {
    hide ProbeFrom;
  }

  lemma {:induction false} StageKeepsClean(start: Disk, items: seq<Item>, powers: seq<nat>, hash: Hash)
    requires Lawful(start, powers, hash) && Usable(powers) && CleanDisk(start, powers)
    requires StageAll(start, items, powers, hash).Kept?
    ensures CleanDisk(StageAll(start, items, powers, hash).disk, powers)
  {
    hide Lawful, CleanDisk, PlaceOne;
    if items != [] {
      var init, last := items[..|items| - 1], items[|items| - 1];
      StageKeepsClean(start, init, powers, hash);
      var kept := StageAll(start, init, powers, hash);
      var key := hash(last.id).value;
      if SeenKey(last.id.Space(), key) !in kept.seen { PutKeepsClean(kept.disk, last, key, powers, hash); }
    }
  }

  /** On such a disk a put answers for its own key and changes no other answer. */
  lemma PutMovesOnly(disk: Disk, item: Item, key: Key, space: Namespace, other: Key, powers: seq<nat>, hash: Hash)
    requires Lawful(disk, powers, hash) && Usable(powers) && hash(item.id) == Some(key) && CleanDisk(disk, powers)
    requires PlaceOne(disk, item, key, powers, hash).Takes? && (space, other) != (item.id.Space(), key)
    ensures Lookup(PlaceOne(disk, item, key, powers, hash).disk, powers, hash, space, other)
         == Lookup(disk, powers, hash, space, other)
  {
    hide Lawful, Lookup, Walk, WalkLeaves, Clean, Grows, Orderly, InsertedAt, WithinLoad, CleanDisk, SealsOnly;
    var name := NameOf(item.id.Space(), key);
    var after := PlaceOne(disk, item, key, powers, hash).disk;
    var route := RouteOf(disk, item.id.Space(), key, powers, hash);
    if route.selection.Open? {
      RouteIsWalk(disk, item.id.Space(), key, powers, hash);
      ChainIsClean(disk, name, powers);
      WalkKeepsClean(ChainAt(disk.chains, name), powers, key);
      OpenInserts(disk, item, key, powers, hash);
      OpenPlaces(disk, item, key, powers, hash);
      InsertBindsOnly(disk, after, route.chain, route.selection.level, route.selection.slot, key, item, powers, hash,
        space, other);
    } else {
      WalkedIsLawful(disk, item.id.Space(), key, powers, hash);
      PutIsSettled(disk, item, key, powers, hash);
      SealsOnlyKeepsLookups(disk, Disk(disk.chains[name := route.chain], disk.capsules), powers, hash, space, other);
    }
  }

  lemma {:induction false} StageMovesOnly(start: Disk, items: seq<Item>, space: Namespace, key: Key, powers: seq<nat>,
      hash: Hash)
    requires Lawful(start, powers, hash) && Usable(powers) && CleanDisk(start, powers)
    requires StageAll(start, items, powers, hash).Kept?
    requires forall j :: 0 <= j < |items| ==> SeenKeyOf(items[j], hash) != Some(SeenKey(space, key))
    ensures Lookup(StageAll(start, items, powers, hash).disk, powers, hash, space, key)
         == Lookup(start, powers, hash, space, key)
  {
    hide Lawful, CleanDisk, PlaceOne, Lookup;
    if items != [] {
      var init, last := items[..|items| - 1], items[|items| - 1];
      StageMovesOnly(start, init, space, key, powers, hash);
      StageKeepsClean(start, init, powers, hash);
      var kept := StageAll(start, init, powers, hash);
      var own := hash(last.id).value;
      assert SeenKeyOf(items[|items| - 1], hash) == Some(SeenKey(last.id.Space(), own));
      if SeenKey(last.id.Space(), own) !in kept.seen { PutMovesOnly(kept.disk, last, own, space, key, powers, hash); }
    }
  }

  /** A kept batch is a stored one: its rows are bound, and on such a disk nothing else moved. */
  lemma StagedIsStored(start: Disk, items: seq<Item>, powers: seq<nat>, hash: Hash)
    requires Lawful(start, powers, hash) && Usable(powers) && StageAll(start, items, powers, hash).Kept?
    ensures BatchStored(start, StageAll(start, items, powers, hash).disk, items, powers, hash)
  {
    hide Lawful, CleanDisk, StageAll, Lookup, Grows, FirstsBound, CapsulesFrom;
    var kept := StageAll(start, items, powers, hash);
    KeptMeans(start, items, powers, hash);
    forall j | 0 <= j < |items| ensures RowBound(kept.disk, items[j], powers, hash) {
      assert SeenKeyOf(items[j], hash).value in kept.seen;
    }
    if CleanDisk(start, powers) {
      StageKeepsClean(start, items, powers, hash);
      forall space, key: Key | forall j :: 0 <= j < |items| ==> SeenKeyOf(items[j], hash) != Some(SeenKey(space, key))
        ensures Lookup(kept.disk, powers, hash, space, key) == Lookup(start, powers, hash, space, key)
      {
        StageMovesOnly(start, items, space, key, powers, hash);
      }
    }
  }

  /** The slots of what a crash leaves when none landed are those from before. */
  lemma NothingLanded(start: Chain<int>, view: Chain<int>, image: Chain<int>, key: Key, landed: set<Address>)
    requires CrashChain(start, view, image, landed) && landed == {} && HasSlot(image, key)
    ensures HasSlot(start, key)
  {
    var i, s :| 0 <= i < |image| && 0 <= s < |image[i].slots| && image[i].slots[s].Used?
      && image[i].slots[s].key == key;
    assert CrashLevel(start, view[i], image[i], i, landed);
    assert image[i].slots[s] == LandedSlot(start, view[i].slots[s], Address(i, s), landed);
  }

  /**
   The code's promise that an interrupted batch can be put again fails here: a batch that takes the last room of a
   prefix and is cut before any of its slots lands leaves every level closed, and is refused from then on.
   */
  lemma LastRoomIsLost(start: Disk, items: seq<Item>, image: Disk, name: ChainName, key: Key, powers: seq<nat>,
      hash: Hash)
    requires Lawful(start, powers, hash) && Usable(powers) && CleanDisk(start, powers)
    requires StageAll(start, items, powers, hash).Kept?
    requires RoomFor(StageAll(start, items, powers, hash).disk, name, powers) == 0
    requires CrashOf(start, StageAll(start, items, powers, hash).disk, image, {}) && Lawful(image, powers, hash)
    requires key in Missing(start, items, name, powers, hash)
    ensures RoomFor(image, name, powers) == 0
    ensures StageAll(image, items, powers, hash).Fails?
  {
    hide Lawful, Lookup, StageAll, CleanDisk, KeysOf, CrashChain, HasSlot, Room;
    var view := StageAll(start, items, powers, hash).disk;
    var before, seen, left := ChainAt(start.chains, name), ChainAt(view.chains, name), ChainAt(image.chains, name);
    StageKeepsClean(start, items, powers, hash);
    ChainIsClean(view, name, powers);
    LawfulIsOrderly(view, name, powers, hash);
    RoomlessIsClosed(seen, powers);
    CrashIsClosed(before, seen, left, powers, PartOf({}, name));
    ClosedIsRoomless(left, powers);
    CleanHidesNothing(start, powers, hash);
    MissingIsSlotless(start, items, name, powers, hash);
    if HasSlot(left, key) { NothingLanded(before, seen, left, key, PartOf({}, name)); }
    assert key in Slotless(image, items, name, hash);
    if StageAll(image, items, powers, hash).Kept? { KeptNeedsRoom(image, items, name, powers, hash); }
  }

  lemma CrashIsClosed(start: Chain<int>, view: Chain<int>, image: Chain<int>, powers: seq<nat>, landed: set<Address>)
    requires CrashChain(start, view, image, landed) && AllClosed(view, powers)
    ensures AllClosed(image, powers)
  {
    forall i | 0 <= i < |image| ensures image[i].sealed { assert CrashLevel(start, view[i], image[i], i, landed); }
  }
}