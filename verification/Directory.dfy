/**
 The leveled directory that `exact_replay.py` and `cue_shards.py` both build: an append-only file of identified
 items, and per namespace and key prefix a chain of slot segments that point into it. A batch keeps its slots
 pending, makes seals and items durable first and publishes the slots last.
 */
module Directory {
  import opened Encoding
  import opened LevelWalk
  import opened LeveledTable
  import opened Wrappers

  datatype Namespace = Memories | Sources | Cues

  datatype Identity = AddressId(memory: string) | SourceId(source: string) | CueId(cue: string) {
    function Space(): Namespace {
      match this
      case AddressId(_) => Memories
      case SourceId(_) => Sources
      case CueId(_) => Cues
    }
  }

  /** What an item binds its identity to: the (shard, row) of a record, the shard of a lineage, or a cue's text. */
  datatype Binding = Row(shard: string, row: int) | Lineage(shard: string) | Text(cue: string)

  datatype Item = Item(id: Identity, binding: Binding)

  /** A capsule of the file; `Torn` stands for the bytes an interrupted append left behind. */
  datatype Capsule = Whole(item: Item) | Torn

  datatype ChainName = ChainName(space: Namespace, prefix: Byte)

  datatype Disk = Disk(chains: map<ChainName, Chain<int>>, capsules: seq<Capsule>)

  type Hash = Identity -> Option<Key>

  function NameOf(space: Namespace, key: Key): ChainName { ChainName(space, key[0]) }

  function ChainAt(chains: map<ChainName, Chain<int>>, name: ChainName): Chain<int> {
    if name in chains then chains[name] else []
  }

  // ----- lawful disks and what readers answer -----

  ghost predicate PointsRight(slot: Slot<int>, name: ChainName, capsules: seq<Capsule>, hash: Hash) {
    slot.Used? ==>
      && slot.key[0] == name.prefix
      && 0 <= slot.payload < |capsules|
      && capsules[slot.payload].Whole?
      && hash(capsules[slot.payload].item.id) == Some(slot.key)
      && capsules[slot.payload].item.id.Space() == name.space
  }

  ghost predicate AllPointRight(slots: seq<Slot<int>>, name: ChainName, capsules: seq<Capsule>, hash: Hash) {
    forall s :: 0 <= s < |slots| ==> PointsRight(slots[s], name, capsules, hash)
  }

  ghost predicate LawfulChain(chain: Chain<int>, name: ChainName, capsules: seq<Capsule>, powers: seq<nat>, hash: Hash)
  {
    match name
    case ChainName(_, _) =>
      && Shaped(chain, powers) && Routed(chain) && LawfulStates(chain, powers)
      && forall i :: 0 <= i < |chain| ==> AllPointRight(chain[i].slots, name, capsules, hash)
  }

  ghost predicate Lawful(disk: Disk, powers: seq<nat>, hash: Hash) {
    match disk
    case Disk(chains, capsules) =>
      forall name :: name in chains ==> LawfulChain(chains[name], name, capsules, powers, hash)
  }

  /** The record a reader of the key arrives at. */
  ghost function Lookup(disk: Disk, powers: seq<nat>, hash: Hash, space: Namespace, key: Key): (item: Option<Item>)
    requires Lawful(disk, powers, hash)
    ensures item.Some? ==> hash(item.value.id) == Some(key) && item.value.id.Space() == space
  {
    var chain := ChainAt(disk.chains, NameOf(space, key));
    match Seek(chain, powers, key, 0)
    case Nowhere => None
    case At(level, slot) =>
      assert AllPointRight(chain[level].slots, NameOf(space, key), disk.capsules, hash);
      Some(disk.capsules[chain[level].slots[slot].payload].item)
  }

  datatype Answer = InvalidAddress | Absent | Bound(binding: Binding) | IdentityMismatch

  ghost function Answered(disk: Disk, powers: seq<nat>, hash: Hash, id: Identity): Answer
    requires Lawful(disk, powers, hash)
  {
    match hash(id)
    case None => InvalidAddress
    case Some(key) =>
      match Lookup(disk, powers, hash, id.Space(), key)
      case None => Absent
      case Some(item) => if item.id == id then Bound(item.binding) else IdentityMismatch
  }

  // ----- write-once growth -----

  ghost predicate SlotsKept(before: Chain<int>, after: Chain<int>) {
    forall i :: 0 <= i < |before| && i < |after| ==> LevelKept(before[i].slots, after[i].slots)
  }

  ghost predicate LevelKept(before: seq<Slot<int>>, after: seq<Slot<int>>) {
    forall s :: 0 <= s < |before| && s < |after| && before[s].Used? ==> after[s] == before[s]
  }

  ghost predicate Grows(before: Disk, after: Disk) {
    match after
    case Disk(chains, capsules) =>
      && before.capsules <= capsules
      && forall name :: name in before.chains ==>
           && name in chains
           && ChainGrows(before.chains[name], chains[name])
           && SlotsKept(before.chains[name], chains[name])
  }

  lemma GrowsTransitive(a: Disk, b: Disk, c: Disk)
    requires Grows(a, b) && Grows(b, c)
    ensures Grows(a, c)
  {
    forall name | name in a.chains
      ensures name in c.chains && ChainGrows(a.chains[name], c.chains[name])
              && SlotsKept(a.chains[name], c.chains[name])
    {
      ChainGrowsTransitive(a.chains[name], b.chains[name], c.chains[name]);
    }
  }

  lemma LookupIsStable(before: Disk, after: Disk, powers: seq<nat>, hash: Hash, space: Namespace, key: Key)
    requires Lawful(before, powers, hash) && Lawful(after, powers, hash) && Grows(before, after)
    requires Lookup(before, powers, hash, space, key).Some?
    ensures Lookup(after, powers, hash, space, key) == Lookup(before, powers, hash, space, key)
  {
    var name := NameOf(space, key);
    var place := Seek(before.chains[name], powers, key, 0);
    SeekIsStable(before.chains[name], after.chains[name], powers, key, 0);
    assert LevelKept(before.chains[name][place.level].slots, after.chains[name][place.level].slots);
    assert AllPointRight(before.chains[name][place.level].slots, name, before.capsules, hash);
  }

  /** Over every run of puts, rejected puts and crashes: an answer once given is given for ever. */
  lemma AnswersAreStable(before: Disk, after: Disk, powers: seq<nat>, hash: Hash, id: Identity)
    requires Lawful(before, powers, hash) && Lawful(after, powers, hash) && Grows(before, after)
    requires Answered(before, powers, hash, id) != Absent
    ensures Answered(after, powers, hash, id) == Answered(before, powers, hash, id)
  {
    if hash(id).Some? { LookupIsStable(before, after, powers, hash, id.Space(), hash(id).value); }
  }

  ghost predicate CleanDisk(disk: Disk, powers: seq<nat>) {
    forall name :: name in disk.chains ==> Clean(disk.chains[name], powers)
  }

  // ----- the dictionaries of one batch -----

  datatype Address = Address(level: nat, slot: nat)
  datatype LevelState = LevelState(count: nat, sealed: bool)
  datatype SeenKey = SeenKey(space: Namespace, key: Key)

  /** `pending_slots` (with the staged payload) and `level_states`, for the segments of one chain. */
  datatype ChainBatch = ChainBatch(slots: map<Address, Slot<int>>, states: map<nat, LevelState>)

  const NOTHING := ChainBatch(map[], map[])

  /** All chains the batch touched, and `pending`: the binding per key it has already dealt with. */
  datatype Batch = Batch(touched: map<ChainName, ChainBatch>, seen: map<SeenKey, Binding>) {
    function On(name: ChainName): ChainBatch { if name in touched then touched[name] else NOTHING }
  }

  function PendingSlot(stored: Slot<int>, at: Address, slots: map<Address, Slot<int>>): Slot<int> {
    if at in slots then slots[at] else stored
  }

  function VirtualSlots(stored: seq<Slot<int>>, level: nat, slots: map<Address, Slot<int>>): (r: seq<Slot<int>>)
    ensures |r| == |stored|
  {
    seq(|stored|, s requires 0 <= s < |stored| => PendingSlot(stored[s], Address(level, s), slots))
  }

  function VirtualSegment(stored: Segment<int>, level: nat, batch: ChainBatch): Segment<int> {
    var state := if level in batch.states then batch.states[level] else LevelState(stored.count, stored.sealed);
    Segment(VirtualSlots(stored.slots, level, batch.slots), state.count, state.sealed)
  }

  /** The chain as the batch sees it: stored slots with the pending ones laid over them. */
  function Virtual(stored: Chain<int>, batch: ChainBatch): (r: Chain<int>)
    ensures |r| == |stored|
  {
    seq(|stored|, i requires 0 <= i < |stored| => VirtualSegment(stored[i], i, batch))
  }

  lemma NothingIsVirtual(stored: Chain<int>)
    ensures Virtual(stored, NOTHING) == stored
  {
    forall i | 0 <= i < |stored| ensures Virtual(stored, NOTHING)[i] == stored[i] {
      assert VirtualSlots(stored[i].slots, i, map[]) == stored[i].slots;
    }
  }

  /** Pending slots are free on disk, counts are no lower than there, and every seal is already on disk. */
  ghost predicate ChainSession(stored: Chain<int>, batch: ChainBatch, name: ChainName, capsules: seq<Capsule>,
      powers: seq<nat>, hash: Hash) {
    match batch
    case ChainBatch(slots, states) =>
      && LawfulChain(stored, name, capsules, powers, hash)
      && LawfulChain(Virtual(stored, batch), name, capsules, powers, hash)
      && (forall at :: at in slots ==>
           && at.level < |stored| && at.slot < |stored[at.level].slots|
           && stored[at.level].slots[at.slot].Vacant? && slots[at].Used?)
      && (forall i :: i in states ==>
           i < |stored| && states[i].sealed == stored[i].sealed && stored[i].count <= states[i].count)
  }

  lemma FreshLevelIsLawful(was: Chain<int>, now: Chain<int>, name: ChainName, capsules: seq<Capsule>, powers: seq<nat>,
      hash: Hash)
    requires LawfulChain(was, name, capsules, powers, hash)
    requires |was| < |powers| && powers[|was|] >= 1 && now == was + [Fresh(powers[|was|])]
    ensures LawfulChain(now, name, capsules, powers, hash) && Resealed(was, now)
  {
    ThresholdLeavesRoom(powers[|was|]);
    forall i | 0 < i < |now| && (now[i].sealed || HoldsKeys(now[i])) ensures now[i - 1].sealed {
      assert i < |was| && now[i] == was[i];
    }
  }

  /** `_open_segment(create=True)` and the first look at the level's state. */
  function OpenStates(chain: Chain<int>, batch: ChainBatch, i: nat): ChainBatch
    requires i < |chain|
  {
    if i in batch.states then batch
    else batch.(states := batch.states[i := LevelState(chain[i].count, chain[i].sealed)])
  }

  lemma OpenLevelVirtual(was: Chain<int>, now: Chain<int>, batch: ChainBatch, i: nat, p: nat)
    requires i <= |was| && now == if i < |was| then was else was + [Fresh(p)]
    requires forall at :: at in batch.slots ==> at.level < |was|
    requires forall j :: j in batch.states ==> j < |was|
    ensures Virtual(now, OpenStates(now, batch, i)) ==
              if i < |was| then Virtual(was, batch) else Virtual(was, batch) + [Fresh(p)]
  {
    var after := OpenStates(now, batch, i);
    forall j | 0 <= j < |was| ensures Virtual(now, after)[j] == Virtual(was, batch)[j] {
      assert now[j] == was[j];
    }
    if i == |was| {
      assert forall s: nat :: Address(i, s) !in batch.slots;
      assert VirtualSlots(now[i].slots, i, batch.slots) == now[i].slots;
      assert Virtual(now, after)[i] == Fresh(p);
    }
  }

  lemma OpenLevelKeeps(was: Chain<int>, now: Chain<int>, batch: ChainBatch, i: nat, name: ChainName,
      capsules: seq<Capsule>, powers: seq<nat>, hash: Hash)
    requires ChainSession(was, batch, name, capsules, powers, hash)
    requires i < |powers| && i <= |was| && powers[i] >= 1
    requires now == if i < |was| then was else was + [Fresh(powers[i])]
    ensures ChainSession(now, OpenStates(now, batch, i), name, capsules, powers, hash)
    ensures Resealed(was, now)
    ensures Resealed(Virtual(was, batch), Virtual(now, OpenStates(now, batch, i)))
  {
    hide PointsRight, AllPointRight, HoldsKeys, LawfulStates;
    OpenLevelVirtual(was, now, batch, i, powers[i]);
    if i == |was| {
      FreshLevelIsLawful(was, now, name, capsules, powers, hash);
      FreshLevelIsLawful(Virtual(was, batch), Virtual(was, batch) + [Fresh(powers[i])], name, capsules, powers, hash);
    }
    SessionFacts(now, OpenStates(now, batch, i), name, capsules, powers, hash, was, batch);
  }

  lemma SessionFacts(now: Chain<int>, after: ChainBatch, name: ChainName, capsules: seq<Capsule>,
      powers: seq<nat>, hash: Hash, was: Chain<int>, batch: ChainBatch)
    requires ChainSession(was, batch, name, capsules, powers, hash)
    requires LawfulChain(now, name, capsules, powers, hash)
    requires LawfulChain(Virtual(now, after), name, capsules, powers, hash)
    requires Resealed(was, now) && after.slots == batch.slots
    requires forall i :: i in after.states ==>
               i < |now| && after.states[i].sealed == now[i].sealed && now[i].count <= after.states[i].count
    ensures ChainSession(now, after, name, capsules, powers, hash)
  {}

  lemma StateIsLawful(was: Chain<int>, i: nat, count: nat, sealed: bool, name: ChainName, capsules: seq<Capsule>,
      powers: seq<nat>, hash: Hash)
    requires LawfulChain(was, name, capsules, powers, hash)
    requires i < |was| && (was[i].sealed ==> sealed) && count <= Pow2(powers[i])
    requires !sealed ==> count < Threshold(powers[i])
    requires sealed && i > 0 ==> was[i - 1].sealed
    ensures LawfulChain(WithState(was, i, count, sealed), name, capsules, powers, hash)
    ensures Resealed(was, WithState(was, i, count, sealed))
  {
    var now := WithState(was, i, count, sealed);
    forall j | 0 < j < |now| && (now[j].sealed || HoldsKeys(now[j])) ensures now[j - 1].sealed {
      if HoldsKeys(now[j]) { assert HoldsKeys(was[j]); }
    }
  }

  function SetState(batch: ChainBatch, i: nat, count: nat, sealed: bool): ChainBatch {
    batch.(states := batch.states[i := LevelState(count, sealed)])
  }

  lemma SetStateVirtual(was: Chain<int>, now: Chain<int>, batch: ChainBatch, i: nat, count: nat, sealed: bool)
    requires i < |was| && now == if sealed then WithState(was, i, count, true) else was
    ensures Virtual(now, SetState(batch, i, count, sealed)) == WithState(Virtual(was, batch), i, count, sealed)
  {
    var after := SetState(batch, i, count, sealed);
    forall j | 0 <= j < |was| ensures Virtual(now, after)[j] == WithState(Virtual(was, batch), i, count, sealed)[j] {
      assert now[j].slots == was[j].slots;
    }
  }

  /** The level's new state in the batch, and on disk at once when it seals the level. */
  lemma SetStateKeeps(was: Chain<int>, now: Chain<int>, batch: ChainBatch, i: nat, count: nat, sealed: bool,
      name: ChainName, capsules: seq<Capsule>, powers: seq<nat>, hash: Hash)
    requires ChainSession(was, batch, name, capsules, powers, hash)
    requires i < |was| && (was[i].sealed ==> sealed) && was[i].count <= count <= Pow2(powers[i])
    requires !sealed ==> count < Threshold(powers[i])
    requires sealed && i > 0 ==> was[i - 1].sealed
    requires now == if sealed then WithState(was, i, count, true) else was
    ensures var after := SetState(batch, i, count, sealed);
            && ChainSession(now, after, name, capsules, powers, hash)
            && Resealed(was, now)
            && Virtual(now, after) == WithState(Virtual(was, batch), i, count, sealed)
            && Resealed(Virtual(was, batch), Virtual(now, after))
  {
    hide PointsRight, AllPointRight, HoldsKeys, Routed;
    SetStateVirtual(was, now, batch, i, count, sealed);
    VirtualSealsAgree(was, batch, name, capsules, powers, hash);
    StateIsLawful(Virtual(was, batch), i, count, sealed, name, capsules, powers, hash);
    if sealed { StateIsLawful(was, i, count, true, name, capsules, powers, hash); }
    SessionFacts(now, SetState(batch, i, count, sealed), name, capsules, powers, hash, was, batch);
  }

  lemma VirtualSealsAgree(stored: Chain<int>, batch: ChainBatch, name: ChainName, capsules: seq<Capsule>,
      powers: seq<nat>, hash: Hash)
    requires ChainSession(stored, batch, name, capsules, powers, hash)
    ensures forall j :: 0 <= j < |stored| ==> Virtual(stored, batch)[j].sealed == stored[j].sealed
  {}

  datatype Error = InvalidIdentity | AddressReassigned | LineageSplit | CapacityExceeded | HashCollision

  // ----- how staging moves the two views of the disk -----

  ghost predicate DiskResealed(before: Disk, after: Disk) {
    forall name :: name in after.chains ==> Resealed(ChainAt(before.chains, name), after.chains[name])
  }

  ghost predicate SealsOnly(before: Disk, after: Disk) {
    match after
    case Disk(chains, capsules) =>
      && before.chains.Keys <= chains.Keys
      && before.capsules <= capsules
      && DiskResealed(before, after)
  }

  lemma SealsOnlyGrows(before: Disk, after: Disk)
    requires SealsOnly(before, after)
    ensures Grows(before, after)
  {
    forall name | name in before.chains
      ensures ChainGrows(before.chains[name], after.chains[name]) && SlotsKept(before.chains[name], after.chains[name])
    {
      assert Resealed(ChainAt(before.chains, name), after.chains[name]);
    }
  }

  lemma SealsOnlyTransitive(a: Disk, b: Disk, c: Disk)
    requires SealsOnly(a, b) && SealsOnly(b, c)
    ensures SealsOnly(a, c)
  {
    forall name | name in c.chains ensures Resealed(ChainAt(a.chains, name), c.chains[name]) {
      assert Resealed(ChainAt(b.chains, name), c.chains[name]);
      if name in b.chains {
        assert Resealed(ChainAt(a.chains, name), b.chains[name]);
        var x, y, z := ChainAt(a.chains, name), b.chains[name], c.chains[name];
        forall i | |x| <= i < |z| ensures !HoldsKeys(z[i]) {
          if i < |y| { assert z[i].slots == y[i].slots; assert !HoldsKeys(y[i]); }
        }
      } else {
        assert name !in a.chains;
      }
    }
  }

  /** A batch that stops before publishing leaves every answer as it was. */
  lemma SealsOnlyKeepsLookups(before: Disk, after: Disk, powers: seq<nat>, hash: Hash, space: Namespace, key: Key)
    requires Lawful(before, powers, hash) && Lawful(after, powers, hash) && SealsOnly(before, after)
    ensures Lookup(after, powers, hash, space, key) == Lookup(before, powers, hash, space, key)
  {
    var name := NameOf(space, key);
    var b, a := ChainAt(before.chains, name), ChainAt(after.chains, name);
    if name in after.chains {
      assert Resealed(b, a);
      ResealKeepsSeek(b, a, powers, key, 0);
      if Seek(b, powers, key, 0).At? {
        var place := Seek(b, powers, key, 0);
        assert AllPointRight(b[place.level].slots, name, before.capsules, hash);
      }
    }
  }

  lemma SealsOnlyKeepsClean(before: Disk, after: Disk, powers: seq<nat>, hash: Hash)
    requires Lawful(before, powers, hash) && Lawful(after, powers, hash) && SealsOnly(before, after)
    requires CleanDisk(before, powers)
    requires forall name :: name in after.chains ==> WithinLoad(after.chains[name], powers)
    ensures CleanDisk(after, powers)
  {
    forall name | name in after.chains ensures Clean(after.chains[name], powers) {
      assert Resealed(ChainAt(before.chains, name), after.chains[name]);
      ResealedStaysClean(ChainAt(before.chains, name), after.chains[name], powers);
    }
  }

  /** Of all chain files only the one named may have changed. */
  ghost predicate OnlyAt(before: map<ChainName, Chain<int>>, after: map<ChainName, Chain<int>>, name: ChainName) {
    && after.Keys == before.Keys + {name}
    && forall n :: n in before && n != name ==> after[n] == before[n]
  }

  // ----- the level walk of a put over one prefix's chain -----

  /** `_probe_pending`; with no pending slot it is `_probe`. */
  method ProbePending(stored: seq<Slot<int>>, key: Key, p: nat, level: nat, pending: map<Address, Slot<int>>)
    returns (probe: Probe)
    requires Fits(stored, p)
    ensures probe == ProbeSlots(VirtualSlots(stored, level, pending), key, p)
  {
    ghost var virtual := VirtualSlots(stored, level, pending);
    var c := 0;
    while c < Pow2(p)
      invariant 0 <= c <= Pow2(p)
      invariant ProbeSlots(virtual, key, p) == ProbeFrom(virtual, key, p, c)
    {
      var s := SlotAt(key, p, c);
      var found := PendingSlot(stored[s], Address(level, s), pending);
      assert virtual[s] == found;
      if found.Used? && found.key == key { return Found(s); }
      if found.Vacant? { return Free(s); }
      c := c + 1;
    }
    probe := Full;
  }

  /** No crash: what the batch sees is clean, and what is on disk is within its load. */
  ghost predicate Uncrashed(chain: Chain<int>, batch: ChainBatch, powers: seq<nat>) {
    Clean(Virtual(chain, batch), powers) && WithinLoad(chain, powers)
  }

  lemma OccupiedBelow(stored: seq<Slot<int>>, level: nat, pending: map<Address, Slot<int>>)
    requires forall s :: Address(level, s) in pending ==> pending[Address(level, s)].Used?
    ensures |Occupied(stored)| <= |Occupied(VirtualSlots(stored, level, pending))|
  {
    SubsetSize(Occupied(stored), Occupied(VirtualSlots(stored, level, pending)));
  }

  method OpenLevel(chain: Chain<int>, batch: ChainBatch, i: nat, ghost name: ChainName, ghost capsules: seq<Capsule>,
      powers: seq<nat>, ghost hash: Hash) returns (chain': Chain<int>, batch': ChainBatch)
    requires ChainSession(chain, batch, name, capsules, powers, hash)
    requires i < |powers| && i <= |chain| && powers[i] >= 1
    ensures ChainSession(chain', batch', name, capsules, powers, hash)
    ensures batch'.slots == batch.slots && i in batch'.states && i < |chain'|
    ensures Resealed(chain, chain') && Resealed(Virtual(chain, batch), Virtual(chain', batch'))
    ensures Virtual(chain', batch') == WithLevel(Virtual(chain, batch), powers, i)
    ensures Uncrashed(chain, batch, powers) ==> Uncrashed(chain', batch', powers)
  {
    hide AllPointRight, HoldsKeys, LawfulStates, Reachable, Virtual, Uncrashed, Resealed;
    OpenLevelVirtual(chain, WithLevel(chain, powers, i), batch, i, powers[i]);
    chain' := if i < |chain| then chain else chain + [Fresh(powers[i])];
    batch' := OpenStates(chain', batch, i);
    OpenLevelKeeps(chain, chain', batch, i, name, capsules, powers, hash);
    if Uncrashed(chain, batch, powers) { OpenUncrashed(chain, chain', batch, i, name, capsules, powers, hash); }
  }

  lemma OpenUncrashed(chain: Chain<int>, chain': Chain<int>, batch: ChainBatch, i: nat, name: ChainName,
      capsules: seq<Capsule>, powers: seq<nat>, hash: Hash)
    requires ChainSession(chain, batch, name, capsules, powers, hash) && Uncrashed(chain, batch, powers)
    requires i < |powers| && i <= |chain| && chain' == if i < |chain| then chain else chain + [Fresh(powers[i])]
    requires ChainSession(chain', OpenStates(chain', batch, i), name, capsules, powers, hash)
    requires Resealed(Virtual(chain, batch), Virtual(chain', OpenStates(chain', batch, i)))
    ensures Uncrashed(chain', OpenStates(chain', batch, i), powers)
  {
    hide AllPointRight, HoldsKeys, LawfulStates, Reachable, Virtual, ProbeFrom;
    OpenLevelVirtual(chain, chain', batch, i, powers[i]);
    assert Occupied(Fresh<int>(powers[i]).slots) == {};
    ResealedStaysClean(Virtual(chain, batch), Virtual(chain', OpenStates(chain', batch, i)), powers);
  }

  /** The level's state in the batch; a seal reaches the disk before anything else happens. */
  method WriteState(chain: Chain<int>, batch: ChainBatch, i: nat, count: nat, sealed: bool, ghost name: ChainName,
      ghost capsules: seq<Capsule>, ghost powers: seq<nat>, ghost hash: Hash)
      returns (chain': Chain<int>, batch': ChainBatch)
    requires ChainSession(chain, batch, name, capsules, powers, hash)
    requires i < |chain| && (chain[i].sealed ==> sealed) && chain[i].count <= count <= Pow2(powers[i])
    requires !sealed ==> count < Threshold(powers[i])
    requires sealed && i > 0 ==> chain[i - 1].sealed
    ensures ChainSession(chain', batch', name, capsules, powers, hash)
    ensures batch'.slots == batch.slots && |chain'| == |chain| && chain'[i].sealed == sealed
    ensures Resealed(chain, chain') && Resealed(Virtual(chain, batch), Virtual(chain', batch'))
    ensures Virtual(chain', batch') == WithState(Virtual(chain, batch), i, count, sealed)
    ensures (Uncrashed(chain, batch, powers) && Virtual(chain, batch)[i].count <= count <= Threshold(powers[i]))
              ==> Uncrashed(chain', batch', powers)
  {
    hide LawfulStates, AllPointRight, Uncrashed, Resealed;
    batch' := SetState(batch, i, count, sealed);
    chain' := if sealed then WithState(chain, i, count, true) else chain;
    SetStateKeeps(chain, chain', batch, i, count, sealed, name, capsules, powers, hash);
    if Uncrashed(chain, batch, powers) && Virtual(chain, batch)[i].count <= count <= Threshold(powers[i]) {
      StateUncrashed(chain, chain', batch, batch', i, count, sealed, name, capsules, powers, hash);
    }
  }

  lemma StateUncrashed(chain: Chain<int>, chain': Chain<int>, batch: ChainBatch, batch': ChainBatch, i: nat,
      count: nat, sealed: bool, name: ChainName, capsules: seq<Capsule>, powers: seq<nat>, hash: Hash)
    requires ChainSession(chain, batch, name, capsules, powers, hash)
             && ChainSession(chain', batch', name, capsules, powers, hash)
    requires i < |chain| && chain' == if sealed then WithState(chain, i, count, true) else chain
    requires Virtual(chain', batch') == WithState(Virtual(chain, batch), i, count, sealed)
    requires Resealed(Virtual(chain, batch), Virtual(chain', batch'))
    requires Uncrashed(chain, batch, powers) && Virtual(chain, batch)[i].count <= count <= Threshold(powers[i])
    ensures Uncrashed(chain', batch', powers)
  {
    hide PointsRight, AllPointRight, LawfulStates, Reachable, HoldsKeys, Routed, ProbeFrom, Occupied;
    OccupiedBelow(chain[i].slots, i, batch.slots);
    ResealedStaysClean(Virtual(chain, batch), Virtual(chain', batch'), powers);
  }

  /** One level of the walk: it has the key, takes the key, or passes it on and is closed. */
  method VisitLevel(chain: Chain<int>, batch: ChainBatch, key: Key, i: nat, ghost name: ChainName,
      ghost capsules: seq<Capsule>, powers: seq<nat>, ghost hash: Hash)
    returns (chain': Chain<int>, batch': ChainBatch, probe: Probe, takes: bool)
    requires ChainSession(chain, batch, name, capsules, powers, hash)
    requires i < |powers| && i <= |chain| && Usable(powers)
    requires i > 0 ==> chain[i - 1].sealed
    ensures ChainSession(chain', batch', name, capsules, powers, hash)
    ensures batch'.slots == batch.slots && i < |chain'|
    ensures StepsTo(Virtual(chain, batch), Virtual(chain', batch'), powers, key, i, probe, takes)
    ensures Resealed(chain, chain') && Resealed(Virtual(chain, batch), Virtual(chain', batch'))
    ensures probe == ProbeSlots(Virtual(chain', batch')[i].slots, key, powers[i])
    ensures takes ==> probe.Free? && (i < |chain| ==> !chain[i].sealed)
    ensures !takes && !probe.Found? ==> chain'[i].sealed
    ensures Uncrashed(chain, batch, powers) ==> Uncrashed(chain', batch', powers)
    ensures Uncrashed(chain, batch, powers) && takes ==>
              var level := Virtual(chain', batch')[i]; |Occupied(level.slots)| < level.count
  {
    hide ChainSession, Uncrashed, Virtual, StepsTo, Walk, HoldsKeys, Resealed, ProbeFrom, Pow2, Threshold, Occupied;
    AnyLevel(chain, batch, name, capsules, powers, hash);
    chain', batch' := OpenLevel(chain, batch, i, name, capsules, powers, hash);
    ghost var c1, v0, v1 := chain', Virtual(chain, batch), Virtual(chain', batch');
    LevelInView(chain', batch', i, name, capsules, powers, hash);
    probe := ProbePending(chain'[i].slots, key, powers[i], i, batch'.slots);
    var state := batch'.states[i];
    SealsStay(chain, c1, i);
    takes := false;
    if probe.Full? {
      if Uncrashed(chain, batch, powers) { UncrashedTakes(c1, batch', powers, key, i); }
      chain', batch' := WriteState(chain', batch', i, Pow2(powers[i]), true, name, capsules, powers, hash);
    } else if probe.Free? && !state.sealed {
      takes := true;
      if Uncrashed(chain, batch, powers) { UncrashedTakes(c1, batch', powers, key, i); }
      chain', batch' := WriteState(chain', batch', i, state.count + 1, state.count + 1 >= Threshold(powers[i]),
                                   name, capsules, powers, hash);
    }
    AnyLevel(chain', batch', name, capsules, powers, hash);
    ResealedTransitive(chain, c1, chain');
    ResealedTransitive(v0, v1, Virtual(chain', batch'));
    VisitSteps(v0, v1, Virtual(chain', batch'), powers, key, i, probe, takes);
  }

  lemma AnyLevel(chain: Chain<int>, batch: ChainBatch, name: ChainName, capsules: seq<Capsule>, powers: seq<nat>,
      hash: Hash)
    requires ChainSession(chain, batch, name, capsules, powers, hash)
    ensures Shaped(chain, powers) && Shaped(Virtual(chain, batch), powers) && |Virtual(chain, batch)| == |chain|
  {
  }

  /** An opened level as the batch sees it. */
  lemma LevelInView(chain: Chain<int>, batch: ChainBatch, i: nat, name: ChainName, capsules: seq<Capsule>,
      powers: seq<nat>, hash: Hash)
    requires ChainSession(chain, batch, name, capsules, powers, hash) && i in batch.states && Usable(powers)
    ensures i < |chain| <= |powers| && |Virtual(chain, batch)| == |chain| && Fits(chain[i].slots, powers[i])
    ensures var state := batch.states[i];
            && Virtual(chain, batch)[i] == Segment(VirtualSlots(chain[i].slots, i, batch.slots), state.count,
                                                   state.sealed)
            && state.sealed == chain[i].sealed && chain[i].count <= state.count <= Pow2(powers[i])
            && (!state.sealed ==> state.count < Threshold(powers[i]) < Pow2(powers[i]))
  {
    hide AllPointRight, HoldsKeys, Routed, Pow2, Threshold;
    ThresholdLeavesRoom(powers[i]);
    assert Virtual(chain, batch)[i] == VirtualSegment(chain[i], i, batch);
  }

  lemma SealsStay(before: Chain<int>, after: Chain<int>, i: nat)
    requires Resealed(before, after) && i <= |before| && (i > 0 ==> before[i - 1].sealed)
    ensures i > 0 ==> i <= |after| && after[i - 1].sealed
    ensures i < |before| ==> (before[i].sealed ==> i < |after| && after[i].sealed)
  {
  }

  /** On an uncrashed chain no probe runs full, and a level that takes a key has counted all it holds. */
  lemma UncrashedTakes(chain: Chain<int>, batch: ChainBatch, powers: seq<nat>, key: Key, i: nat)
    requires Uncrashed(chain, batch, powers) && i < |chain| && |Virtual(chain, batch)| == |chain|
    ensures Shaped(Virtual(chain, batch), powers) && |chain| <= |powers|
    ensures !ProbeSlots(Virtual(chain, batch)[i].slots, key, powers[i]).Full?
    ensures |Occupied(Virtual(chain, batch)[i].slots)| <= Virtual(chain, batch)[i].count
  {
    hide Virtual, Reachable, ProbeFrom, Occupied;
    CleanNeverFull(Virtual(chain, batch), powers, key, i);
  }

  lemma NothingWalked(chain: Chain<int>, virtual: Chain<int>, powers: seq<nat>, key: Key)
    requires Shaped(virtual, powers)
    ensures Resealed(chain, chain) && Resealed(virtual, virtual) && Walked(virtual, powers, key, 0)
  {
  }

  lemma FoundHere(chain: Chain<int>, powers: seq<nat>, key: Key, i: nat, slot: nat)
    requires Shaped(chain, powers) && Walked(chain, powers, key, i) && i < |chain|
             && ProbeSlots(chain[i].slots, key, powers[i]) == Found(slot)
    ensures Seek(chain, powers, key, 0) == At(i, slot)
  {
    WalkedSkips(chain, powers, key, i);
  }

  lemma ChosenHere(chain: Chain<int>, walked: Chain<int>, before: Chain<int>, mid: Chain<int>, powers: seq<nat>,
      key: Key, i: nat, slot: nat)
    requires Shaped(before, powers) && Shaped(mid, powers) && Routed(before) && Routed(mid) && Resealed(before, mid)
    requires Walked(mid, powers, key, i) && i < |mid| && ProbeSlots(mid[i].slots, key, powers[i]) == Free(slot)
    requires Resealed(chain, walked) && |before| == |chain| && i <= |walked|
    requires i < |walked| ==> !walked[i].sealed
    requires forall j :: 0 <= j < |chain| ==> before[j].sealed == chain[j].sealed
    ensures Chosen(before, mid, powers, key, i, slot)
  {
    hide HoldsKeys, ProbeFrom;
  }

  lemma RefusedWhen(chain: Chain<int>, batch: ChainBatch, key: Key, name: ChainName, capsules: seq<Capsule>,
      powers: seq<nat>, hash: Hash)
    requires ChainSession(chain, batch, name, capsules, powers, hash) && Usable(powers)
    ensures Walk(Virtual(chain, batch), powers, key, 0).selection.NoRoom?
       <==> NoPlace(Virtual(chain, batch), powers, key, 0)
  {
    hide AllPointRight, HoldsKeys, LawfulStates, Routed, Walk, NoPlace;
    NoRoomIff(Virtual(chain, batch), powers, key, 0);
  }

  /** The level walk of a put: where the key is, or the first open level's free slot for it. */
  method SelectSlot(chain: Chain<int>, batch: ChainBatch, key: Key, ghost name: ChainName,
      ghost capsules: seq<Capsule>, powers: seq<nat>, ghost hash: Hash)
    returns (chain': Chain<int>, batch': ChainBatch, selection: Selection)
    requires ChainSession(chain, batch, name, capsules, powers, hash) && Usable(powers)
    ensures ChainSession(chain', batch', name, capsules, powers, hash) && batch'.slots == batch.slots
    ensures Resealed(chain, chain') && Resealed(Virtual(chain, batch), Virtual(chain', batch'))
    ensures Walk(Virtual(chain, batch), powers, key, 0) == Route(Virtual(chain', batch'), selection)
    ensures selection.NoRoom? <==> NoPlace(Virtual(chain, batch), powers, key, 0)
    ensures selection.Existing? ==>
              Seek(Virtual(chain', batch'), powers, key, 0) == At(selection.level, selection.slot)
    ensures selection.Open? ==>
              Chosen(Virtual(chain, batch), Virtual(chain', batch'), powers, key, selection.level, selection.slot)
    ensures Uncrashed(chain, batch, powers) ==> Uncrashed(chain', batch', powers)
    ensures Uncrashed(chain, batch, powers) && selection.Open? ==>
              var level := Virtual(chain', batch')[selection.level]; |Occupied(level.slots)| < level.count
  {
    hide AllPointRight, HoldsKeys, LawfulStates, Routed, Resealed, Passes, Seek, Chosen, Uncrashed, Virtual, ProbeFrom;
    chain', batch' := chain, batch;
    ghost var v0 := Virtual(chain, batch);
    NothingWalked(chain, v0, powers, key);
    RefusedWhen(chain, batch, key, name, capsules, powers, hash);
    var i := 0;
    while i < |powers|
      invariant 0 <= i <= |powers| && i <= |chain'|
      invariant ChainSession(chain', batch', name, capsules, powers, hash) && batch'.slots == batch.slots
      invariant Resealed(chain, chain') && Resealed(v0, Virtual(chain', batch'))
      invariant Walked(Virtual(chain', batch'), powers, key, i)
      invariant Walk(v0, powers, key, 0) == Walk(Virtual(chain', batch'), powers, key, i)
      invariant Uncrashed(chain, batch, powers) ==> Uncrashed(chain', batch', powers)
    {
      ghost var c1, v1 := chain', Virtual(chain', batch');
      VirtualSealsAgree(chain', batch', name, capsules, powers, hash);
      assert i > 0 ==> Virtual(chain', batch')[i - 1].sealed;
      var probe, takes;
      chain', batch', probe, takes := VisitLevel(chain', batch', key, i, name, capsules, powers, hash);
      ghost var v2 := Virtual(chain', batch');
      ResealedTransitive(chain, c1, chain');
      ResealedTransitive(v0, v1, v2);
      WalkedStays(v1, v2, powers, key, i);
      VirtualSealsAgree(chain', batch', name, capsules, powers, hash);
      if probe.Found? {
        FoundHere(v2, powers, key, i, probe.slot);
        return chain', batch', Existing(i, probe.slot);
      }
      if takes {
        VirtualSealsAgree(chain, batch, name, capsules, powers, hash);
        ChosenHere(chain, c1, v0, v2, powers, key, i, probe.slot);
        return chain', batch', Open(i, probe.slot);
      }
      WalkedFurther(v2, powers, key, i);
      i := i + 1;
    }
    selection := NoRoom;
  }

  // ----- one step of a put, on the disk a reader would see -----

  lemma MoreCapsulesPointRight(slots: seq<Slot<int>>, name: ChainName, capsules: seq<Capsule>, more: seq<Capsule>,
      hash: Hash)
    requires AllPointRight(slots, name, capsules, hash) && capsules <= more
    ensures AllPointRight(slots, name, more, hash)
  {
    forall s | 0 <= s < |slots| ensures PointsRight(slots[s], name, more, hash) {
      assert PointsRight(slots[s], name, capsules, hash);
    }
  }

  lemma NewSlotPointsRight(slots: seq<Slot<int>>, slot: nat, key: Key, item: Item, name: ChainName,
      capsules: seq<Capsule>, hash: Hash)
    requires AllPointRight(slots, name, capsules, hash) && slot < |slots| && slots[slot].Vacant?
    requires hash(item.id) == Some(key) && name == NameOf(item.id.Space(), key)
    ensures var after := slots[slot := Used(key, |capsules|)];
            AllPointRight(after, name, capsules + [Whole(item)], hash) && LevelKept(slots, after)
  {
    MoreCapsulesPointRight(slots, name, capsules, capsules + [Whole(item)], hash);
  }

  lemma InsertedChainIsLawful(before: Chain<int>, mid: Chain<int>, level: nat, slot: nat, key: Key, item: Item,
      name: ChainName, capsules: seq<Capsule>, powers: seq<nat>, hash: Hash)
    requires LawfulChain(before, name, capsules, powers, hash)
    requires Chosen(before, mid, powers, key, level, slot) && LawfulStates(mid, powers)
    requires hash(item.id) == Some(key) && name == NameOf(item.id.Space(), key)
    ensures LawfulChain(WithSlot(mid, level, slot, Used(key, |capsules|)), name, capsules + [Whole(item)], powers, hash)
    ensures SlotsKept(before, WithSlot(mid, level, slot, Used(key, |capsules|)))
  {
    var after := WithSlot(mid, level, slot, Used(key, |capsules|));
    InsertIsLawful(before, mid, powers, key, level, slot, |capsules|);
    forall i | 0 <= i < |mid|
      ensures AllPointRight(after[i].slots, name, capsules + [Whole(item)], hash)
      ensures i < |before| ==> LevelKept(before[i].slots, after[i].slots)
    {
      if i >= |before| { NoKeysPointRight(mid[i], name, capsules, hash); }
      if i == level {
        NewSlotPointsRight(mid[i].slots, slot, key, item, name, capsules, hash);
      } else {
        MoreCapsulesPointRight(mid[i].slots, name, capsules, capsules + [Whole(item)], hash);
      }
    }
  }

  lemma NoKeysPointRight(segment: Segment<int>, name: ChainName, capsules: seq<Capsule>, hash: Hash)
    requires !HoldsKeys(segment)
    ensures AllPointRight(segment.slots, name, capsules, hash)
  {}

  lemma MoreCapsulesKeepLawful(chain: Chain<int>, name: ChainName, capsules: seq<Capsule>, more: seq<Capsule>,
      powers: seq<nat>, hash: Hash)
    requires LawfulChain(chain, name, capsules, powers, hash) && capsules <= more
    ensures LawfulChain(chain, name, more, powers, hash)
  {
    forall i | 0 <= i < |chain| ensures AllPointRight(chain[i].slots, name, more, hash) {
      MoreCapsulesPointRight(chain[i].slots, name, capsules, more, hash);
    }
  }

  ghost predicate InsertedAt(before: Disk, after: Disk, mid: Chain<int>, level: nat, slot: nat, key: Key, item: Item,
      powers: seq<nat>, hash: Hash) {
    var name := NameOf(item.id.Space(), key);
    && hash(item.id) == Some(key)
    && Chosen(ChainAt(before.chains, name), mid, powers, key, level, slot)
    && LawfulStates(mid, powers)
    && OnlyAt(before.chains, after.chains, name)
    && after.capsules == before.capsules + [Whole(item)]
    && after.chains[name] == WithSlot(mid, level, slot, Used(key, |before.capsules|))
  }

  /** Inserting binds the key to the record, wherever the disk's crashes left it. */
  lemma InsertBinds(before: Disk, after: Disk, mid: Chain<int>, level: nat, slot: nat, key: Key, item: Item,
      powers: seq<nat>, hash: Hash)
    requires Lawful(before, powers, hash) && InsertedAt(before, after, mid, level, slot, key, item, powers, hash)
    ensures Lawful(after, powers, hash) && Grows(before, after)
    ensures Lookup(after, powers, hash, item.id.Space(), key) == Some(item)
  {
    hide Seek, LawfulChain, ChainGrows, SlotsKept, Chosen, LawfulStates;
    var name := NameOf(item.id.Space(), key);
    InsertedFacts(before, after, mid, level, slot, key, item, powers, hash);
    forall n | n in after.chains ensures LawfulChain(after.chains[n], n, after.capsules, powers, hash) {
      if n != name { MoreCapsulesKeepLawful(before.chains[n], n, before.capsules, after.capsules, powers, hash); }
    }
    forall n | n in before.chains
      ensures ChainGrows(before.chains[n], after.chains[n]) && SlotsKept(before.chains[n], after.chains[n])
    {
      if n != name { SameChainGrows(before.chains[n]); }
    }
  }

  lemma SameChainGrows(chain: Chain<int>)
    ensures ChainGrows(chain, chain) && SlotsKept(chain, chain)
  {
  }

  /** The one chain an insertion touches. */
  lemma InsertedFacts(before: Disk, after: Disk, mid: Chain<int>, level: nat, slot: nat, key: Key, item: Item,
      powers: seq<nat>, hash: Hash)
    requires Lawful(before, powers, hash) && InsertedAt(before, after, mid, level, slot, key, item, powers, hash)
    ensures var name := NameOf(item.id.Space(), key);
            && LawfulChain(after.chains[name], name, after.capsules, powers, hash)
            && ChainGrows(ChainAt(before.chains, name), after.chains[name])
               && SlotsKept(ChainAt(before.chains, name), after.chains[name])
            && Seek(after.chains[name], powers, key, 0) == At(level, slot)
            && after.chains[name][level].slots[slot] == Used(key, |before.capsules|)
  {
    hide PointsRight, AllPointRight, ProbeFrom, HoldsKeys, LevelKept, Seek;
    var name := NameOf(item.id.Space(), key);
    var chain := ChainAt(before.chains, name);
    assert LawfulChain(chain, name, before.capsules, powers, hash) by {
      EmptyIsLawful(name, before.capsules, powers, hash);
    }
    InsertedChainIsLawful(chain, mid, level, slot, key, item, name, before.capsules, powers, hash);
    InsertIsLawful(chain, mid, powers, key, level, slot, |before.capsules|);
  }

  lemma ChainIsLawful(disk: Disk, name: ChainName, powers: seq<nat>, hash: Hash)
    requires Lawful(disk, powers, hash)
    ensures LawfulChain(ChainAt(disk.chains, name), name, disk.capsules, powers, hash)
  {
    EmptyIsLawful(name, disk.capsules, powers, hash);
  }

  lemma EmptyIsLawful(name: ChainName, capsules: seq<Capsule>, powers: seq<nat>, hash: Hash)
    ensures LawfulChain([], name, capsules, powers, hash)
  {
  }

  lemma InsertSeeksOnly(before: Disk, after: Disk, mid: Chain<int>, level: nat, slot: nat, key: Key, item: Item,
      powers: seq<nat>, hash: Hash, space: Namespace, other: Key)
    requires Lawful(before, powers, hash) && Lawful(after, powers, hash) && CleanDisk(before, powers)
    requires InsertedAt(before, after, mid, level, slot, key, item, powers, hash)
    requires WithinLoad(mid, powers) && |Occupied(mid[level].slots)| < mid[level].count
    requires (space, other) != (item.id.Space(), key)
    ensures var n := NameOf(space, other);
      Seek(ChainAt(after.chains, n), powers, other, 0) == Seek(ChainAt(before.chains, n), powers, other, 0)
  {
    var name := NameOf(item.id.Space(), key);
    if NameOf(space, other) == name {
      InsertIsExact(ChainAt(before.chains, name), mid, powers, key, level, slot, |before.capsules|);
    }
  }

  lemma InsertKeepsClean(before: Disk, after: Disk, mid: Chain<int>, level: nat, slot: nat, key: Key, item: Item,
      powers: seq<nat>, hash: Hash)
    requires CleanDisk(before, powers)
    requires InsertedAt(before, after, mid, level, slot, key, item, powers, hash)
    requires WithinLoad(mid, powers) && |Occupied(mid[level].slots)| < mid[level].count
    ensures CleanDisk(after, powers)
  {
    hide Clean, Chosen, Occupied, LawfulStates, WithSlot;
    var name := NameOf(item.id.Space(), key);
    InsertIsExact(ChainAt(before.chains, name), mid, powers, key, level, slot, |before.capsules|);
  }

  /** On an uncrashed disk it binds that key and no other. */
  lemma InsertBindsOnly(before: Disk, after: Disk, mid: Chain<int>, level: nat, slot: nat, key: Key, item: Item,
      powers: seq<nat>, hash: Hash, space: Namespace, other: Key)
    requires Lawful(before, powers, hash) && Lawful(after, powers, hash) && CleanDisk(before, powers)
    requires InsertedAt(before, after, mid, level, slot, key, item, powers, hash)
    requires WithinLoad(mid, powers) && |Occupied(mid[level].slots)| < mid[level].count
    requires (space, other) != (item.id.Space(), key)
    ensures Lookup(after, powers, hash, space, other) == Lookup(before, powers, hash, space, other)
  {
    InsertBinds(before, after, mid, level, slot, key, item, powers, hash);
    InsertSeeksOnly(before, after, mid, level, slot, key, item, powers, hash, space, other);
    SameSeekSameLookup(before, after, powers, hash, space, other);
  }

  lemma SameSeekSameLookup(before: Disk, after: Disk, powers: seq<nat>, hash: Hash, space: Namespace, key: Key)
    requires Lawful(before, powers, hash) && Lawful(after, powers, hash) && Grows(before, after)
    requires var name := NameOf(space, key);
      Seek(ChainAt(after.chains, name), powers, key, 0) == Seek(ChainAt(before.chains, name), powers, key, 0)
    ensures Lookup(after, powers, hash, space, key) == Lookup(before, powers, hash, space, key)
  {
    if Lookup(before, powers, hash, space, key).Some? { LookupIsStable(before, after, powers, hash, space, key); }
  }

  // ----- what a put does, as a function of the disk it sees -----

  /** The error for a key that is taken by another item. */
  function Conflict(id: Identity): Error {
    match id
    case AddressId(_) => AddressReassigned
    case SourceId(_) => LineageSplit
    case CueId(_) => HashCollision
  }

  datatype Placing = Takes(disk: Disk) | Refuses(error: Error)

  /**
   One put: refused when the key is bound to another item or there is no room for it, and otherwise the walked chain,
   with the item's capsule and slot unless the item is there already.
   */
  ghost function PlaceOne(disk: Disk, item: Item, key: Key, powers: seq<nat>, hash: Hash): (placing: Placing)
    requires Lawful(disk, powers, hash) && Usable(powers) && hash(item.id) == Some(key)
    ensures placing.Takes? ==> NowBound(disk, placing.disk, item, key, powers, hash)
  {
    var name := NameOf(item.id.Space(), key);
    var route := RouteOf(disk, item.id.Space(), key, powers, hash);
    PlacingFacts(disk, item, key, powers, hash);
    match Lookup(disk, powers, hash, item.id.Space(), key)
    case Some(stored) =>
      if stored == item then Takes(Disk(disk.chains[name := route.chain], disk.capsules))
      else Refuses(Conflict(item.id))
    case None =>
      if route.selection.NoRoom? then Refuses(CapacityExceeded)
      else Takes(Disk(disk.chains[name := Settled(route, key, |disk.capsules|)], disk.capsules + [Whole(item)]))
  }

  ghost predicate NowBound(before: Disk, after: Disk, item: Item, key: Key, powers: seq<nat>, hash: Hash) {
    && Lawful(before, powers, hash) && Lawful(after, powers, hash) && Grows(before, after)
    && Lookup(after, powers, hash, item.id.Space(), key) == Some(item)
  }

  ghost function RouteOf(disk: Disk, space: Namespace, key: Key, powers: seq<nat>, hash: Hash): (route: Route<int>)
    requires Lawful(disk, powers, hash) && Usable(powers)
    ensures WalkLeaves(ChainAt(disk.chains, NameOf(space, key)), powers, key, 0, route)
    ensures Fitting(route) && (Lookup(disk, powers, hash, space, key).Some? <==> route.selection.Existing?)
  {
    var chain := ChainAt(disk.chains, NameOf(space, key));
    ChainIsLawful(disk, NameOf(space, key), powers, hash);
    WalkKeeps(chain, powers, key, 0);
    LeavesFit(chain, powers, key, 0, Walk(chain, powers, key, 0));
    Walk(chain, powers, key, 0)
  }

  lemma PlacingFacts(disk: Disk, item: Item, key: Key, powers: seq<nat>, hash: Hash)
    requires Lawful(disk, powers, hash) && Usable(powers) && hash(item.id) == Some(key)
    ensures var name, route := NameOf(item.id.Space(), key), RouteOf(disk, item.id.Space(), key, powers, hash);
            match Lookup(disk, powers, hash, item.id.Space(), key)
            case Some(stored) =>
              stored == item ==>
                NowBound(disk, Disk(disk.chains[name := route.chain], disk.capsules), item, key, powers, hash)
            case None =>
              !route.selection.NoRoom? ==>
                NowBound(disk, Disk(disk.chains[name := Settled(route, key, |disk.capsules|)],
                                   disk.capsules + [Whole(item)]), item, key, powers, hash)
  {
    hide Walk, WalkLeaves, Lookup, Lawful, Grows, Seek, ProbeFrom;
    var name, route := NameOf(item.id.Space(), key), RouteOf(disk, item.id.Space(), key, powers, hash);
    WalkedIsLawful(disk, item.id.Space(), key, powers, hash);
    if route.selection.Open? {
      var after := Disk(disk.chains[name := Settled(route, key, |disk.capsules|)], disk.capsules + [Whole(item)]);
      OpenInserts(disk, item, key, powers, hash);
      InsertBinds(disk, after, route.chain, route.selection.level, route.selection.slot, key, item, powers, hash);
    }
  }

  /** The walk alone is invisible to every reader. */
  lemma WalkedIsLawful(disk: Disk, space: Namespace, key: Key, powers: seq<nat>, hash: Hash)
    requires Lawful(disk, powers, hash) && Usable(powers)
    ensures var name := NameOf(space, key);
            var after := Disk(disk.chains[name := RouteOf(disk, space, key, powers, hash).chain], disk.capsules);
            && Lawful(after, powers, hash) && SealsOnly(disk, after) && Grows(disk, after)
            && Lookup(after, powers, hash, space, key) == Lookup(disk, powers, hash, space, key)
  {
    hide Walk, Seek, ProbeFrom, Lookup, Grows, ChainGrows, SlotsKept;
    var name, route := NameOf(space, key), RouteOf(disk, space, key, powers, hash);
    var after := Disk(disk.chains[name := route.chain], disk.capsules);
    ChainIsLawful(disk, name, powers, hash);
    ResealedPointsRight(ChainAt(disk.chains, name), route.chain, name, disk.capsules, powers, hash);
    SealsAtName(disk, after, name);
    SealsOnlyGrows(disk, after);
    SealsOnlyKeepsLookups(disk, after, powers, hash, space, key);
  }

  lemma ResealedPointsRight(before: Chain<int>, after: Chain<int>, name: ChainName, capsules: seq<Capsule>,
      powers: seq<nat>, hash: Hash)
    requires LawfulChain(before, name, capsules, powers, hash) && Resealed(before, after) && Orderly(after, powers)
    ensures LawfulChain(after, name, capsules, powers, hash)
  {
    hide PointsRight, ProbeFrom, LawfulStates, Routed;
    forall i | 0 <= i < |after| ensures AllPointRight(after[i].slots, name, capsules, hash) {
      if i >= |before| { NoKeysPointRight(after[i], name, capsules, hash); }
    }
  }

  lemma OpenInserts(disk: Disk, item: Item, key: Key, powers: seq<nat>, hash: Hash)
    requires Lawful(disk, powers, hash) && Usable(powers) && hash(item.id) == Some(key)
    requires RouteOf(disk, item.id.Space(), key, powers, hash).selection.Open?
    ensures var name, route := NameOf(item.id.Space(), key), RouteOf(disk, item.id.Space(), key, powers, hash);
            var after := Disk(disk.chains[name := Settled(route, key, |disk.capsules|)],
                              disk.capsules + [Whole(item)]);
            InsertedAt(disk, after, route.chain, route.selection.level, route.selection.slot, key, item, powers, hash)
  {
    hide Walk, Seek, ProbeFrom, AllPointRight, Passes, HoldsKeys, Resealed;
    var name := NameOf(item.id.Space(), key);
    ChainIsLawful(disk, name, powers, hash);
  }

  datatype Staged = Kept(disk: Disk, seen: map<SeenKey, Binding>) | Fails(error: Error)

  /** One row of a batch: an identity without a key fails, a key already dealt with is compared, others are put. */
  ghost function StageOne(disk: Disk, seen: map<SeenKey, Binding>, item: Item, powers: seq<nat>, hash: Hash)
    : (staged: Staged)
    requires Lawful(disk, powers, hash) && Usable(powers)
    ensures staged.Kept? ==> Lawful(staged.disk, powers, hash) && Grows(disk, staged.disk)
  {
    NothingChanged(disk);
    match hash(item.id)
    case None => Fails(InvalidIdentity)
    case Some(key) =>
      var sk := SeenKey(item.id.Space(), key);
      if sk in seen then
        if seen[sk] == item.binding then Kept(disk, seen) else Fails(Conflict(item.id))
      else
        match PlaceOne(disk, item, key, powers, hash)
        case Takes(after) => Kept(after, seen[sk := item.binding])
        case Refuses(error) => Fails(error)
  }

  /** The rows of a batch, one at a time. */
  ghost function StageAll(disk: Disk, items: seq<Item>, powers: seq<nat>, hash: Hash): (staged: Staged)
    requires Lawful(disk, powers, hash) && Usable(powers)
    ensures staged.Kept? ==> Lawful(staged.disk, powers, hash)
  {
    if items == [] then Kept(disk, map[])
    else
      match StageAll(disk, items[..|items| - 1], powers, hash)
      case Fails(error) => Fails(error)
      case Kept(now, seen) => StageOne(now, seen, items[|items| - 1], powers, hash)
  }

  // ----- a whole batch in flight -----

  function VirtualDisk(disk: Disk, batch: Batch): Disk {
    Disk(map name | name in disk.chains :: Virtual(disk.chains[name], batch.On(name)), disk.capsules)
  }

  ghost predicate BatchFits(disk: Disk, batch: Batch, powers: seq<nat>, hash: Hash) {
    match disk
    case Disk(chains, capsules) =>
      && batch.touched.Keys <= chains.Keys
      && (forall name :: name in chains ==>
           ChainSession(chains[name], batch.On(name), name, capsules, powers, hash))
      && (forall name :: name in chains ==> PendingAreSeen(batch.On(name), name, batch.seen))
  }

  ghost predicate PendingAreSeen(batch: ChainBatch, name: ChainName, seen: map<SeenKey, Binding>) {
    forall at :: at in batch.slots && batch.slots[at].Used? ==> SeenKey(name.space, batch.slots[at].key) in seen
  }

  lemma BatchFitsLawful(disk: Disk, batch: Batch, powers: seq<nat>, hash: Hash)
    requires BatchFits(disk, batch, powers, hash)
    ensures Lawful(disk, powers, hash) && Lawful(VirtualDisk(disk, batch), powers, hash)
  {
    var seen := VirtualDisk(disk, batch);
    forall name | name in seen.chains ensures LawfulChain(seen.chains[name], name, seen.capsules, powers, hash) {
      assert ChainSession(disk.chains[name], batch.On(name), name, disk.capsules, powers, hash);
    }
  }

  ghost predicate AllUncrashed(disk: Disk, batch: Batch, powers: seq<nat>) {
    match disk
    case Disk(chains, _) => forall name :: name in chains ==> Uncrashed(chains[name], batch.On(name), powers)
  }

  ghost predicate AllWithinLoad(disk: Disk, powers: seq<nat>) {
    forall name :: name in disk.chains ==> |disk.chains[name]| <= |powers| && WithinLoad(disk.chains[name], powers)
  }

  /** One chain and its part of the batch replaced by a resealed pair. */
  ghost predicate WalkedAt(before: Disk, batch: Batch, after: Disk, batch': Batch, name: ChainName) {
    && OnlyAt(before.chains, after.chains, name) && after.capsules == before.capsules
    && batch'.seen == batch.seen
    && batch'.touched.Keys == batch.touched.Keys + {name}
    && (forall n :: n != name ==> batch'.On(n) == batch.On(n))
    && batch'.On(name).slots == batch.On(name).slots
    && Resealed(ChainAt(before.chains, name), after.chains[name])
    && Resealed(Virtual(ChainAt(before.chains, name), batch.On(name)), Virtual(after.chains[name], batch'.On(name)))
  }

  function WithPart(batch: Batch, name: ChainName, part: ChainBatch): Batch {
    batch.(touched := batch.touched[name := part])
  }

  lemma WalkIntro(disk: Disk, batch: Batch, chain: Chain<int>, part: ChainBatch, name: ChainName)
    requires batch.touched.Keys <= disk.chains.Keys
    requires part.slots == batch.On(name).slots
    requires Resealed(ChainAt(disk.chains, name), chain)
    requires Resealed(Virtual(ChainAt(disk.chains, name), batch.On(name)), Virtual(chain, part))
    ensures WalkedAt(disk, batch, Disk(disk.chains[name := chain], disk.capsules), WithPart(batch, name, part), name)
    ensures WithPart(batch, name, part).On(name) == part
    ensures ChainAt(VirtualDisk(disk, batch).chains, name) == Virtual(ChainAt(disk.chains, name), batch.On(name))
  {}

  lemma WalkUncrashed(disk: Disk, batch: Batch, chain: Chain<int>, part: ChainBatch, name: ChainName, powers: seq<nat>)
    requires AllUncrashed(disk, batch, powers) && Uncrashed(chain, part, powers)
    ensures AllUncrashed(Disk(disk.chains[name := chain], disk.capsules), WithPart(batch, name, part), powers)
  {
    var disk', batch' := Disk(disk.chains[name := chain], disk.capsules), WithPart(batch, name, part);
    forall n | n in disk'.chains ensures Uncrashed(disk'.chains[n], batch'.On(n), powers) {
      if n != name { assert Uncrashed(disk.chains[n], batch.On(n), powers); }
    }
  }

  lemma EmptySession(name: ChainName, capsules: seq<Capsule>, powers: seq<nat>, hash: Hash)
    ensures ChainSession([], NOTHING, name, capsules, powers, hash) && Uncrashed([], NOTHING, powers)
  {
    NothingIsVirtual([]);
  }

  lemma SessionOf(disk: Disk, batch: Batch, name: ChainName, powers: seq<nat>, hash: Hash)
    requires BatchFits(disk, batch, powers, hash)
    ensures ChainSession(ChainAt(disk.chains, name), batch.On(name), name, disk.capsules, powers, hash)
  {
    if name !in disk.chains { EmptySession(name, disk.capsules, powers, hash); }
  }

  lemma WalkKeepsBatch(before: Disk, batch: Batch, after: Disk, batch': Batch, name: ChainName, powers: seq<nat>,
      hash: Hash)
    requires BatchFits(before, batch, powers, hash) && WalkedAt(before, batch, after, batch', name)
    requires ChainSession(after.chains[name], batch'.On(name), name, after.capsules, powers, hash)
    ensures BatchFits(after, batch', powers, hash)
  {
    forall n | n in after.chains
      ensures ChainSession(after.chains[n], batch'.On(n), n, after.capsules, powers, hash)
      ensures PendingAreSeen(batch'.On(n), n, batch'.seen)
    {
      if n in before.chains {
        assert PendingAreSeen(batch.On(n), n, batch.seen);
      } else {
        assert batch.On(n) == NOTHING;
      }
    }
  }

  lemma WalkSeals(before: Disk, batch: Batch, after: Disk, batch': Batch, name: ChainName)
    requires batch.touched.Keys <= before.chains.Keys
    requires WalkedAt(before, batch, after, batch', name)
    ensures SealsOnly(before, after) && SealsOnly(VirtualDisk(before, batch), VirtualDisk(after, batch'))
    ensures OnlyAt(VirtualDisk(before, batch).chains, VirtualDisk(after, batch').chains, name)
  {
    SealsAtName(before, after, name);
    var v, v' := VirtualDisk(before, batch), VirtualDisk(after, batch');
    assert ChainAt(v.chains, name) == Virtual(ChainAt(before.chains, name), batch.On(name));
    SealsAtName(v, v', name);
  }

  lemma SealsAtName(before: Disk, after: Disk, name: ChainName)
    requires OnlyAt(before.chains, after.chains, name) && before.capsules <= after.capsules
    requires Resealed(ChainAt(before.chains, name), after.chains[name])
    ensures SealsOnly(before, after)
  {}

  function Stage(batch: ChainBatch, at: Address, slot: Slot<int>): ChainBatch {
    batch.(slots := batch.slots[at := slot])
  }

  lemma StageVirtual(stored: Chain<int>, batch: ChainBatch, at: Address, slot: Slot<int>)
    requires at.level < |stored| && at.slot < |stored[at.level].slots|
    ensures Virtual(stored, Stage(batch, at, slot)) == WithSlot(Virtual(stored, batch), at.level, at.slot, slot)
  {
    var after := Stage(batch, at, slot);
    forall i | 0 <= i < |stored|
      ensures Virtual(stored, after)[i] == WithSlot(Virtual(stored, batch), at.level, at.slot, slot)[i]
    {
      assert VirtualSlots(stored[i].slots, i, after.slots) ==
        if i == at.level then VirtualSlots(stored[i].slots, i, batch.slots)[at.slot := slot]
        else VirtualSlots(stored[i].slots, i, batch.slots);
    }
  }

  lemma MoreCapsulesKeepSession(stored: Chain<int>, batch: ChainBatch, name: ChainName, capsules: seq<Capsule>,
      more: seq<Capsule>, powers: seq<nat>, hash: Hash)
    requires ChainSession(stored, batch, name, capsules, powers, hash) && capsules <= more
    ensures ChainSession(stored, batch, name, more, powers, hash)
  {
    MoreCapsulesKeepLawful(stored, name, capsules, more, powers, hash);
    MoreCapsulesKeepLawful(Virtual(stored, batch), name, capsules, more, powers, hash);
  }

  lemma StageKeepsSession(before: Chain<int>, stored: Chain<int>, batch: ChainBatch, level: nat, slot: nat, key: Key,
      item: Item, name: ChainName, capsules: seq<Capsule>, powers: seq<nat>, hash: Hash)
    requires LawfulChain(before, name, capsules, powers, hash)
    requires ChainSession(stored, batch, name, capsules, powers, hash)
    requires Chosen(before, Virtual(stored, batch), powers, key, level, slot)
    requires hash(item.id) == Some(key) && name == NameOf(item.id.Space(), key)
    ensures ChainSession(stored, Stage(batch, Address(level, slot), Used(key, |capsules|)), name,
                         capsules + [Whole(item)], powers, hash)
  {
    var after := Stage(batch, Address(level, slot), Used(key, |capsules|));
    StageVirtual(stored, batch, Address(level, slot), Used(key, |capsules|));
    InsertedChainIsLawful(before, Virtual(stored, batch), level, slot, key, item, name, capsules, powers, hash);
    MoreCapsulesKeepLawful(stored, name, capsules, capsules + [Whole(item)], powers, hash);
    assert Virtual(stored, batch)[level].slots[slot]
           == PendingSlot(stored[level].slots[slot], Address(level, slot), batch.slots);
  }

  /** The new record's capsule is written and its slot is pending. */
  function Placed(batch: Batch, name: ChainName, level: nat, slot: nat, key: Key, item: Item, offset: int): Batch {
    Batch(batch.touched[name := Stage(batch.On(name), Address(level, slot), Used(key, offset))],
          batch.seen[SeenKey(item.id.Space(), key) := item.binding])
  }

  lemma PlaceKeepsPending(disk: Disk, batch: Batch, level: nat, slot: nat, key: Key, item: Item, offset: int,
      n: ChainName)
    requires PendingAreSeen(batch.On(n), n, batch.seen)
    ensures var batch' := Placed(batch, NameOf(item.id.Space(), key), level, slot, key, item, offset);
            PendingAreSeen(batch'.On(n), n, batch'.seen)
  {}

  lemma PlaceKeepsSession(before: Chain<int>, disk: Disk, batch: Batch, level: nat, slot: nat, key: Key, item: Item,
      powers: seq<nat>, hash: Hash, n: ChainName)
    requires n in disk.chains
    requires ChainSession(disk.chains[n], batch.On(n), n, disk.capsules, powers, hash)
    requires hash(item.id) == Some(key)
    requires n == NameOf(item.id.Space(), key) ==>
               && LawfulChain(before, n, disk.capsules, powers, hash)
               && Chosen(before, Virtual(disk.chains[n], batch.On(n)), powers, key, level, slot)
    ensures var batch' := Placed(batch, NameOf(item.id.Space(), key), level, slot, key, item, |disk.capsules|);
            ChainSession(disk.chains[n], batch'.On(n), n, disk.capsules + [Whole(item)], powers, hash)
  {
    if n == NameOf(item.id.Space(), key) {
      StageKeepsSession(before, disk.chains[n], batch.On(n), level, slot, key, item, n, disk.capsules, powers, hash);
    } else {
      MoreCapsulesKeepSession(disk.chains[n], batch.On(n), n, disk.capsules, disk.capsules + [Whole(item)], powers,
        hash);
    }
  }

  lemma PlaceKeepsBatch(before: Chain<int>, disk: Disk, batch: Batch, level: nat, slot: nat, key: Key, item: Item,
      powers: seq<nat>, hash: Hash)
    requires BatchFits(disk, batch, powers, hash)
    requires hash(item.id) == Some(key) && NameOf(item.id.Space(), key) in disk.chains
    requires LawfulChain(before, NameOf(item.id.Space(), key), disk.capsules, powers, hash)
    requires var name := NameOf(item.id.Space(), key);
             Chosen(before, Virtual(disk.chains[name], batch.On(name)), powers, key, level, slot)
    ensures BatchFits(Disk(disk.chains, disk.capsules + [Whole(item)]),
              Placed(batch, NameOf(item.id.Space(), key), level, slot, key, item, |disk.capsules|), powers, hash)
  {
    forall n | n in disk.chains {
      PlaceKeepsSession(before, disk, batch, level, slot, key, item, powers, hash, n);
    }
    forall n | n in disk.chains {
      PlaceKeepsPending(disk, batch, level, slot, key, item, |disk.capsules|, n);
    }
  }

  /** `pending` tells the truth: each key in it is bound to a record with just that binding. */
  ghost predicate SeenAreBound(disk: Disk, seen: map<SeenKey, Binding>, powers: seq<nat>, hash: Hash)
    requires Lawful(disk, powers, hash)
  {
    forall sk :: sk in seen ==>
      var item := Lookup(disk, powers, hash, sk.space, sk.key);
      item.Some? && item.value.binding == seen[sk]
  }

  ghost predicate BatchHolds(disk: Disk, batch: Batch, powers: seq<nat>, hash: Hash) {
    match batch
    case Batch(_, seen) =>
      && BatchFits(disk, batch, powers, hash)
      && (BatchFitsLawful(disk, batch, powers, hash);
          SeenAreBound(VirtualDisk(disk, batch), seen, powers, hash))
  }

  lemma GrowthKeepsSeenBound(before: Disk, after: Disk, seen: map<SeenKey, Binding>, sk: SeenKey, binding: Binding,
      powers: seq<nat>, hash: Hash)
    requires Lawful(before, powers, hash) && Lawful(after, powers, hash) && Grows(before, after)
    requires SeenAreBound(before, seen, powers, hash)
    requires var item := Lookup(after, powers, hash, sk.space, sk.key); item.Some? && item.value.binding == binding
    ensures SeenAreBound(after, seen[sk := binding], powers, hash)
  {
    forall other | other in seen
      ensures Lookup(after, powers, hash, other.space, other.key)
              == Lookup(before, powers, hash, other.space, other.key)
    {
      LookupIsStable(before, after, powers, hash, other.space, other.key);
    }
  }

  lemma PlaceIsInsert(before: Disk, disk: Disk, batch: Batch, level: nat, slot: nat, key: Key, item: Item,
      powers: seq<nat>, hash: Hash)
    requires BatchFits(disk, batch, powers, hash)
    requires hash(item.id) == Some(key) && NameOf(item.id.Space(), key) in disk.chains
    requires before.capsules == disk.capsules
    requires var name := NameOf(item.id.Space(), key);
             && OnlyAt(before.chains, VirtualDisk(disk, batch).chains, name)
             && Chosen(ChainAt(before.chains, name), Virtual(disk.chains[name], batch.On(name)), powers, key, level,
                  slot)
    ensures var name := NameOf(item.id.Space(), key);
            var after := Disk(disk.chains, disk.capsules + [Whole(item)]);
            var batch' := Placed(batch, name, level, slot, key, item, |disk.capsules|);
            InsertedAt(before, VirtualDisk(after, batch'), Virtual(disk.chains[name], batch.On(name)), level, slot,
                       key, item, powers, hash)
  {
    hide ChainSession, LawfulStates, Virtual, Chosen;
    var name := NameOf(item.id.Space(), key);
    SessionStates(disk, batch, name, powers, hash);
    ChosenFits(ChainAt(before.chains, name), Virtual(disk.chains[name], batch.On(name)), powers, key, level, slot);
    SameLength(disk.chains[name], batch.On(name));
    StagedOn(disk, batch, name, level, slot, key, item);
  }

  lemma SessionStates(disk: Disk, batch: Batch, name: ChainName, powers: seq<nat>, hash: Hash)
    requires BatchFits(disk, batch, powers, hash) && name in disk.chains
    ensures |disk.chains[name]| <= |powers| && LawfulStates(Virtual(disk.chains[name], batch.On(name)), powers)
  {
    hide LawfulStates, Virtual;
    assert ChainSession(disk.chains[name], batch.On(name), name, disk.capsules, powers, hash);
  }

  lemma ChosenFits(before: Chain<int>, mid: Chain<int>, powers: seq<nat>, key: Key, level: nat, slot: nat)
    requires Chosen(before, mid, powers, key, level, slot)
    ensures level < |mid| <= |powers| && slot < |mid[level].slots|
  {
  }

  lemma PlaceUncrashed(disk: Disk, batch: Batch, level: nat, slot: nat, key: Key, item: Item, powers: seq<nat>)
    requires AllUncrashed(disk, batch, powers) && NameOf(item.id.Space(), key) in disk.chains
    requires var name := NameOf(item.id.Space(), key);
             && level < |disk.chains[name]| && slot < |disk.chains[name][level].slots|
    requires var name := NameOf(item.id.Space(), key);
             Clean(WithSlot(Virtual(disk.chains[name], batch.On(name)), level, slot, Used(key, |disk.capsules|)),
               powers)
    ensures AllUncrashed(Disk(disk.chains, disk.capsules + [Whole(item)]),
              Placed(batch, NameOf(item.id.Space(), key), level, slot, key, item, |disk.capsules|), powers)
  {
    var name := NameOf(item.id.Space(), key);
    var batch' := Placed(batch, name, level, slot, key, item, |disk.capsules|);
    StageVirtual(disk.chains[name], batch.On(name), Address(level, slot), Used(key, |disk.capsules|));
    forall n | n in disk.chains ensures Uncrashed(disk.chains[n], batch'.On(n), powers) {
      assert Uncrashed(disk.chains[n], batch.On(n), powers);
    }
  }

  /** What staging a record for `key` must have done to the disk as the batch will leave it. */
  ghost predicate StagedTo(before: Disk, after: Disk, seen: map<SeenKey, Binding>, key: Key, item: Item,
      powers: seq<nat>, hash: Hash)
    requires Lawful(before, powers, hash) && Lawful(after, powers, hash)
  {
    match Lookup(after, powers, hash, item.id.Space(), key)
    case None => false
    case Some(bound) =>
      && Grows(before, after)
      && bound.binding == item.binding
      && (SeenKey(item.id.Space(), key) !in seen ==> bound == item)
  }

  ghost predicate OthersKept(before: Disk, after: Disk, key: Key, space: Namespace, powers: seq<nat>, hash: Hash)
    requires Lawful(before, powers, hash) && Lawful(after, powers, hash)
  {
    match after
    case Disk(_, _) =>
      forall s, other: Key :: (s, other) != (space, key) ==>
        Lookup(after, powers, hash, s, other) == Lookup(before, powers, hash, s, other)
  }

  lemma PlaceHolds(before: Disk, seen: map<SeenKey, Binding>, disk: Disk, batch: Batch, level: nat, slot: nat, key: Key,
      item: Item, powers: seq<nat>, hash: Hash)
    requires Lawful(before, powers, hash) && SeenAreBound(before, seen, powers, hash)
    requires BatchFits(disk, batch, powers, hash) && batch.seen == seen
    requires hash(item.id) == Some(key) && NameOf(item.id.Space(), key) in disk.chains
    requires before.capsules == disk.capsules
    requires var name := NameOf(item.id.Space(), key);
             && OnlyAt(before.chains, VirtualDisk(disk, batch).chains, name)
             && Chosen(ChainAt(before.chains, name), Virtual(disk.chains[name], batch.On(name)), powers, key, level,
                  slot)
    ensures var name := NameOf(item.id.Space(), key);
            var after := Disk(disk.chains, disk.capsules + [Whole(item)]);
            var batch' := Placed(batch, name, level, slot, key, item, |disk.capsules|);
            && BatchHolds(after, batch', powers, hash)
            && Lawful(VirtualDisk(after, batch'), powers, hash)
            && StagedTo(before, VirtualDisk(after, batch'), seen, key, item, powers, hash)
  {
    hide Lawful, BatchFits, LawfulChain, ChainSession, Chosen, SeenAreBound, InsertedAt, Grows, Lookup, OnlyAt, Virtual;
    var name := NameOf(item.id.Space(), key);
    var after := Disk(disk.chains, disk.capsules + [Whole(item)]);
    var batch' := Placed(batch, name, level, slot, key, item, |disk.capsules|);
    var mid := Virtual(disk.chains[name], batch.On(name));
    ChainIsLawful(before, name, powers, hash);
    PlaceKeepsBatch(ChainAt(before.chains, name), disk, batch, level, slot, key, item, powers, hash);
    PlaceIsInsert(before, disk, batch, level, slot, key, item, powers, hash);
    InsertBinds(before, VirtualDisk(after, batch'), mid, level, slot, key, item, powers, hash);
    GrowthKeepsSeenBound(before, VirtualDisk(after, batch'), seen, SeenKey(item.id.Space(), key), item.binding, powers,
      hash);
  }

  lemma PlaceKeepsOthers(before: Disk, beforeBatch: Batch, start: Disk, disk: Disk, batch: Batch, level: nat,
      slot: nat, key: Key, item: Item, powers: seq<nat>, hash: Hash)
    requires before == VirtualDisk(start, beforeBatch) && AllUncrashed(start, beforeBatch, powers)
    requires Lawful(before, powers, hash)
    requires BatchFits(disk, batch, powers, hash) && AllUncrashed(disk, batch, powers)
    requires hash(item.id) == Some(key) && NameOf(item.id.Space(), key) in disk.chains
    requires before.capsules == disk.capsules
    requires var name := NameOf(item.id.Space(), key);
             && OnlyAt(before.chains, VirtualDisk(disk, batch).chains, name)
             && Chosen(ChainAt(before.chains, name), Virtual(disk.chains[name], batch.On(name)), powers, key, level,
                  slot)
             && var segment := Virtual(disk.chains[name], batch.On(name))[level];
                |Occupied(segment.slots)| < segment.count
    ensures var name := NameOf(item.id.Space(), key);
            var after := Disk(disk.chains, disk.capsules + [Whole(item)]);
            var batch' := Placed(batch, name, level, slot, key, item, |disk.capsules|);
            && AllUncrashed(after, batch', powers)
            && Lawful(VirtualDisk(after, batch'), powers, hash)
            && OthersKept(before, VirtualDisk(after, batch'), key, item.id.Space(), powers, hash)
  {
    var name := NameOf(item.id.Space(), key);
    var after := Disk(disk.chains, disk.capsules + [Whole(item)]);
    var batch' := Placed(batch, name, level, slot, key, item, |disk.capsules|);
    var mid := Virtual(disk.chains[name], batch.On(name));
    var seen := VirtualDisk(after, batch');
    assert CleanDisk(before, powers) by {
      forall n | n in before.chains ensures Clean(before.chains[n], powers) {
        assert Uncrashed(start.chains[n], beforeBatch.On(n), powers);
      }
    }
    assert Uncrashed(disk.chains[name], batch.On(name), powers);
    PlaceIsInsert(before, disk, batch, level, slot, key, item, powers, hash);
    InsertBinds(before, seen, mid, level, slot, key, item, powers, hash);
    InsertIsExact(ChainAt(before.chains, name), mid, powers, key, level, slot, |disk.capsules|);
    PlaceUncrashed(disk, batch, level, slot, key, item, powers);
    forall s, other: Key | (s, other) != (item.id.Space(), key)
      ensures Lookup(seen, powers, hash, s, other) == Lookup(before, powers, hash, s, other)
    {
      InsertBindsOnly(before, seen, mid, level, slot, key, item, powers, hash, s, other);
    }
  }

  lemma MoreSeenSameView(disk: Disk, batch: Batch, seen: map<SeenKey, Binding>)
    ensures VirtualDisk(disk, batch.(seen := seen)) == VirtualDisk(disk, batch)
    ensures forall n :: batch.(seen := seen).On(n) == batch.On(n)
  {}

  lemma ExistingHolds(before: Disk, disk: Disk, batch: Batch, key: Key, item: Item, powers: seq<nat>, hash: Hash)
    requires Lawful(before, powers, hash) && SeenAreBound(before, batch.seen, powers, hash)
    requires BatchFits(disk, batch, powers, hash) && Lawful(VirtualDisk(disk, batch), powers, hash)
    requires SealsOnly(before, VirtualDisk(disk, batch))
    requires Lookup(VirtualDisk(disk, batch), powers, hash, item.id.Space(), key) == Some(item)
    ensures var batch' := batch.(seen := batch.seen[SeenKey(item.id.Space(), key) := item.binding]);
            && VirtualDisk(disk, batch') == VirtualDisk(disk, batch)
            && BatchHolds(disk, batch', powers, hash)
            && StagedTo(before, VirtualDisk(disk, batch'), batch.seen, key, item, powers, hash)
            && OthersKept(before, VirtualDisk(disk, batch'), key, item.id.Space(), powers, hash)
  {
    var batch' := batch.(seen := batch.seen[SeenKey(item.id.Space(), key) := item.binding]);
    MoreSeenSameView(disk, batch, batch'.seen);
    forall n | n in disk.chains ensures PendingAreSeen(batch'.On(n), n, batch'.seen) {
      assert PendingAreSeen(batch.On(n), n, batch.seen);
    }
    SealsOnlyGrows(before, VirtualDisk(disk, batch));
    GrowthKeepsSeenBound(before, VirtualDisk(disk, batch), batch.seen, SeenKey(item.id.Space(), key), item.binding,
      powers, hash);
    forall s, other: Key
      ensures Lookup(VirtualDisk(disk, batch), powers, hash, s, other) == Lookup(before, powers, hash, s, other)
    {
      SealsOnlyKeepsLookups(before, VirtualDisk(disk, batch), powers, hash, s, other);
    }
  }

  /** Everything one level walk leaves behind. */
  ghost predicate WalkStep(disk: Disk, batch: Batch, disk': Disk, batch': Batch, name: ChainName, key: Key,
      selection: Selection, powers: seq<nat>, hash: Hash) {
    match batch'
    case Batch(_, seen') =>
      && BatchFits(disk, batch, powers, hash) && BatchFits(disk', batch', powers, hash)
      && seen' == batch.seen && name in disk'.chains && disk'.capsules == disk.capsules
      && SealsOnly(disk, disk') && SealsOnly(VirtualDisk(disk, batch), VirtualDisk(disk', batch'))
      && OnlyAt(VirtualDisk(disk, batch).chains, VirtualDisk(disk', batch').chains, name)
      && SelectionFits(ChainAt(VirtualDisk(disk, batch).chains, name), Virtual(disk'.chains[name], batch'.On(name)),
                       key, selection, powers)
      && (AllUncrashed(disk, batch, powers) ==>
           && AllUncrashed(disk', batch', powers)
           && (selection.Open? ==> var level := Virtual(disk'.chains[name], batch'.On(name))[selection.level];
                                   |Occupied(level.slots)| < level.count))
  }

  lemma WalkForStep(disk: Disk, batch: Batch, chain: Chain<int>, part: ChainBatch, name: ChainName, key: Key,
      selection: Selection, powers: seq<nat>, hash: Hash)
    requires BatchFits(disk, batch, powers, hash)
    requires ChainSession(chain, part, name, disk.capsules, powers, hash) && part.slots == batch.On(name).slots
    requires Resealed(ChainAt(disk.chains, name), chain)
    requires Resealed(Virtual(ChainAt(disk.chains, name), batch.On(name)), Virtual(chain, part))
    requires SelectionFits(Virtual(ChainAt(disk.chains, name), batch.On(name)), Virtual(chain, part), key, selection,
               powers)
    requires Uncrashed(ChainAt(disk.chains, name), batch.On(name), powers) ==>
               && Uncrashed(chain, part, powers)
               && (selection.Open? ==> var level := Virtual(chain, part)[selection.level];
                                       |Occupied(level.slots)| < level.count)
    ensures WalkStep(disk, batch, Disk(disk.chains[name := chain], disk.capsules), WithPart(batch, name, part), name,
              key,
                     selection, powers, hash)
  {
    var disk', batch' := Disk(disk.chains[name := chain], disk.capsules), WithPart(batch, name, part);
    WalkIntro(disk, batch, chain, part, name);
    WalkKeepsBatch(disk, batch, disk', batch', name, powers, hash);
    WalkSeals(disk, batch, disk', batch', name);
    if AllUncrashed(disk, batch, powers) {
      EmptySession(name, disk.capsules, powers, hash);
      WalkUncrashed(disk, batch, chain, part, name, powers);
    }
  }

  ghost predicate SelectionFits(before: Chain<int>, after: Chain<int>, key: Key, selection: Selection, powers: seq<nat>)
  {
    && Shaped(after, powers)
    && (selection.Existing? ==> Seek(after, powers, key, 0) == At(selection.level, selection.slot))
    && (selection.Open? ==> Chosen(before, after, powers, key, selection.level, selection.slot))
  }

  lemma SelectedFits(before: Chain<int>, after: Chain<int>, key: Key, selection: Selection, name: ChainName,
      capsules: seq<Capsule>, powers: seq<nat>, hash: Hash, chain: Chain<int>, part: ChainBatch)
    requires ChainSession(chain, part, name, capsules, powers, hash) && after == Virtual(chain, part)
    requires Shaped(after, powers) && selection.Existing? ==>
               Seek(after, powers, key, 0) == At(selection.level, selection.slot)
    requires selection.Open? ==> Chosen(before, after, powers, key, selection.level, selection.slot)
    ensures SelectionFits(before, after, key, selection, powers)
  {
  }

  /** What staging one item leaves on disk even when it ends in a rejection. */
  ghost predicate StagedQuietly(disk: Disk, batch: Batch, disk': Disk, item: Item, powers: seq<nat>, hash: Hash) {
    && SealsOnly(disk, disk') && Lawful(disk', powers, hash)
    && (disk'.capsules == disk.capsules || disk'.capsules == disk.capsules + [Whole(item)])
    && (AllUncrashed(disk, batch, powers) ==> AllWithinLoad(disk', powers))
    && Lawful(VirtualDisk(disk, batch), powers, hash)
  }

  /** Everything staging one item leaves behind, whether it is staged, skipped or rejected. */
  ghost predicate ItemStep(disk: Disk, batch: Batch, disk': Disk, batch': Batch, error: Option<Error>,
      item: Item, key: Key, powers: seq<nat>, hash: Hash) {
    match error
    case Some(_) => StagedQuietly(disk, batch, disk', item, powers, hash)
    case None =>
      && StagedQuietly(disk, batch, disk', item, powers, hash)
      && BatchHolds(disk', batch', powers, hash)
      && batch'.seen == batch.seen[SeenKey(item.id.Space(), key) := item.binding]
      && Lawful(VirtualDisk(disk', batch'), powers, hash)
      && StagedTo(VirtualDisk(disk, batch), VirtualDisk(disk', batch'), batch.seen, key, item, powers, hash)
      && (AllUncrashed(disk, batch, powers) ==>
           && AllUncrashed(disk', batch', powers)
           && OthersKept(VirtualDisk(disk, batch), VirtualDisk(disk', batch'), key, item.id.Space(), powers, hash))
  }

  lemma UncrashedWithinLoad(disk: Disk, batch: Batch, powers: seq<nat>)
    requires AllUncrashed(disk, batch, powers)
    ensures AllWithinLoad(disk, powers)
  {
    forall n | n in disk.chains ensures |disk.chains[n]| <= |powers| && WithinLoad(disk.chains[n], powers) {
      assert Uncrashed(disk.chains[n], batch.On(n), powers);
    }
  }

  lemma NothingChanged(disk: Disk)
    ensures SealsOnly(disk, disk) && Grows(disk, disk)
  {}

  lemma SkipStaged(ahead: Disk, seen: map<SeenKey, Binding>, item: Item, key: Key, powers: seq<nat>, hash: Hash)
    requires Lawful(ahead, powers, hash) && SeenAreBound(ahead, seen, powers, hash)
    requires SeenKey(item.id.Space(), key) in seen && seen[SeenKey(item.id.Space(), key)] == item.binding
    ensures StagedTo(ahead, ahead, seen, key, item, powers, hash)
    ensures seen == seen[SeenKey(item.id.Space(), key) := item.binding]
  {
    NothingChanged(ahead);
  }

  lemma SkipStep(disk: Disk, batch: Batch, error: Option<Error>, item: Item, key: Key, powers: seq<nat>, hash: Hash)
    requires BatchHolds(disk, batch, powers, hash)
    requires SeenKey(item.id.Space(), key) in batch.seen
    requires error.None? ==> batch.seen[SeenKey(item.id.Space(), key)] == item.binding
    ensures ItemStep(disk, batch, disk, batch, error, item, key, powers, hash)
  {
    BatchFitsLawful(disk, batch, powers, hash);
    if AllUncrashed(disk, batch, powers) { UncrashedWithinLoad(disk, batch, powers); }
    NothingChanged(disk);
    var ahead := VirtualDisk(disk, batch);
    if error.None? {
      assert SeenAreBound(ahead, batch.seen, powers, hash);
      SkipStaged(ahead, batch.seen, item, key, powers, hash);
      assert OthersKept(ahead, ahead, key, item.id.Space(), powers, hash);
    }
  }

  /** A walk that ends in a rejection leaves seals only. */
  lemma RejectStep(disk: Disk, batch: Batch, disk': Disk, batch': Batch, name: ChainName, selection: Selection,
      error: Error, item: Item, key: Key, powers: seq<nat>, hash: Hash)
    requires WalkStep(disk, batch, disk', batch', name, key, selection, powers, hash)
    ensures ItemStep(disk, batch, disk', batch', Some(error), item, key, powers, hash)
  {
    BatchFitsLawful(disk, batch, powers, hash);
    BatchFitsLawful(disk', batch', powers, hash);
    if AllUncrashed(disk, batch, powers) { UncrashedWithinLoad(disk', batch', powers); }
  }

  lemma ExistingStep(disk: Disk, batch: Batch, disk': Disk, batch': Batch, name: ChainName, selection: Selection,
      item: Item, key: Key, powers: seq<nat>, hash: Hash)
    requires BatchHolds(disk, batch, powers, hash)
    requires WalkStep(disk, batch, disk', batch', name, key, selection, powers, hash)
    requires Lawful(VirtualDisk(disk', batch'), powers, hash)
    requires Lookup(VirtualDisk(disk', batch'), powers, hash, item.id.Space(), key) == Some(item)
    ensures ItemStep(disk, batch, disk', batch'.(seen := batch'.seen[SeenKey(item.id.Space(), key) := item.binding]),
                     None, item, key, powers, hash)
  {
    BatchFitsLawful(disk, batch, powers, hash);
    BatchFitsLawful(disk', batch', powers, hash);
    ExistingHolds(VirtualDisk(disk, batch), disk', batch', key, item, powers, hash);
    var batch'' := batch'.(seen := batch'.seen[SeenKey(item.id.Space(), key) := item.binding]);
    if AllUncrashed(disk, batch, powers) {
      UncrashedWithinLoad(disk', batch', powers);
      MoreSeenUncrashed(disk', batch', batch''.seen, powers);
    }
  }

  lemma MoreSeenUncrashed(disk: Disk, batch: Batch, seen: map<SeenKey, Binding>, powers: seq<nat>)
    requires AllUncrashed(disk, batch, powers)
    ensures AllUncrashed(disk, batch.(seen := seen), powers)
  {
    forall n | n in disk.chains ensures Uncrashed(disk.chains[n], batch.(seen := seen).On(n), powers) {
      assert Uncrashed(disk.chains[n], batch.On(n), powers);
    }
  }

  lemma MoreCapsulesSealsOnly(disk: Disk, disk': Disk, item: Item)
    requires SealsOnly(disk, disk')
    ensures SealsOnly(disk, Disk(disk'.chains, disk'.capsules + [Whole(item)]))
  {}

  lemma PlaceStep(disk: Disk, batch: Batch, disk': Disk, batch': Batch, name: ChainName, level: nat, slot: nat,
      item: Item, key: Key, powers: seq<nat>, hash: Hash)
    requires BatchHolds(disk, batch, powers, hash)
    requires WalkStep(disk, batch, disk', batch', name, key, Open(level, slot), powers, hash)
    requires hash(item.id) == Some(key) && name == NameOf(item.id.Space(), key)
    ensures ItemStep(disk, batch, Disk(disk'.chains, disk'.capsules + [Whole(item)]),
                     Placed(batch', name, level, slot, key, item, |disk'.capsules|), None, item, key, powers, hash)
  {
    hide SeenAreBound, Grows, OthersKept, StagedTo, AllUncrashed, Chosen, OnlyAt, SealsOnly, AllWithinLoad,
         ChainSession;
    var after := Disk(disk'.chains, disk'.capsules + [Whole(item)]);
    var batch'' := Placed(batch', name, level, slot, key, item, |disk'.capsules|);
    BatchFitsLawful(disk, batch, powers, hash);
    MoreCapsulesSealsOnly(disk, disk', item);
    PlaceHolds(VirtualDisk(disk, batch), batch.seen, disk', batch', level, slot, key, item, powers, hash);
    BatchFitsLawful(after, batch'', powers, hash);
    if AllUncrashed(disk, batch, powers) {
      PlaceStepUncrashed(disk, batch, disk', batch', name, level, slot, item, key, powers, hash);
    }
  }

  lemma PlaceStepUncrashed(disk: Disk, batch: Batch, disk': Disk, batch': Batch, name: ChainName, level: nat, slot: nat,
      item: Item, key: Key, powers: seq<nat>, hash: Hash)
    requires WalkStep(disk, batch, disk', batch', name, key, Open(level, slot), powers, hash)
    requires AllUncrashed(disk, batch, powers)
    requires hash(item.id) == Some(key) && name == NameOf(item.id.Space(), key)
    ensures var after := Disk(disk'.chains, disk'.capsules + [Whole(item)]);
            var batch'' := Placed(batch', name, level, slot, key, item, |disk'.capsules|);
            && AllWithinLoad(after, powers) && AllUncrashed(after, batch'', powers)
            && Lawful(VirtualDisk(disk, batch), powers, hash) && Lawful(VirtualDisk(after, batch''), powers, hash)
            && OthersKept(VirtualDisk(disk, batch), VirtualDisk(after, batch''), key, item.id.Space(), powers, hash)
  {
    BatchFitsLawful(disk, batch, powers, hash);
    PlaceKeepsOthers(VirtualDisk(disk, batch), batch, disk, disk', batch', level, slot, key, item, powers, hash);
    UncrashedWithinLoad(Disk(disk'.chains, disk'.capsules + [Whole(item)]),
      Placed(batch', name, level, slot, key, item, |disk'.capsules|), powers);
  }

  // ----- publishing a batch, wholly or in part -----

  /** What reaches one chain's files: the pending slots in `landed`, the level counts in `counted`. */
  function Publish(stored: Chain<int>, part: ChainBatch, landed: set<Address>, counted: set<nat>): (r: Chain<int>)
    ensures |r| == |stored|
  {
    seq(|stored|, i requires 0 <= i < |stored| => PublishLevel(stored[i], i, part, landed, counted))
  }

  function PublishLevel(stored: Segment<int>, level: nat, part: ChainBatch, landed: set<Address>,
      counted: set<nat>): Segment<int>
  {
    var slots := seq(|stored.slots|, s requires 0 <= s < |stored.slots| =>
      if Address(level, s) in landed then PendingSlot(stored.slots[s], Address(level, s), part.slots)
         else stored.slots[s]);
    Segment(slots,
      if level in part.states && level in counted then part.states[level].count else stored.count, stored.sealed)
  }

  /** An uninterrupted publication is the chain the batch saw. */
  lemma PublishAll(stored: Chain<int>, part: ChainBatch)
    requires forall i :: i in part.states ==> i < |stored| && part.states[i].sealed == stored[i].sealed
    ensures Publish(stored, part, part.slots.Keys, part.states.Keys) == Virtual(stored, part)
  {
    forall i | 0 <= i < |stored|
      ensures Publish(stored, part, part.slots.Keys, part.states.Keys)[i] == Virtual(stored, part)[i]
    {
      assert PublishLevel(stored[i], i, part, part.slots.Keys, part.states.Keys).slots
          == VirtualSlots(stored[i].slots, i, part.slots);
    }
  }

  /** Whatever part of a batch a crash lets through, the chain is lawful and no published slot is lost. */
  lemma PublishIsLawful(start: Chain<int>, stored: Chain<int>, part: ChainBatch, landed: set<Address>,
      counted: set<nat>, name: ChainName, capsules: seq<Capsule>, powers: seq<nat>, hash: Hash)
    requires ChainSession(stored, part, name, capsules, powers, hash)
    requires Resealed(start, stored)
    requires ChainGrows(start, Virtual(stored, part)) && SlotsKept(start, Virtual(stored, part))
    ensures var image := Publish(stored, part, landed, counted);
            && LawfulChain(image, name, capsules, powers, hash)
            && ChainGrows(start, image) && SlotsKept(start, image)
  {
    var image, virtual := Publish(stored, part, landed, counted), Virtual(stored, part);
    forall i | 0 <= i < |stored|
      ensures AllPointRight(image[i].slots, name, capsules, hash)
      ensures HoldsKeys(image[i]) ==> HoldsKeys(virtual[i])
      ensures image[i].sealed == virtual[i].sealed
      ensures Fits(image[i].slots, powers[i])
      ensures image[i].count in {stored[i].count, virtual[i].count}
    {
      PublishedLevelPointsRight(stored[i], i, part, landed, counted, name, capsules, hash);
      PublishedLevelHolds(stored, i, part, landed, counted);
    }
    forall i | 0 < i < |image| && (image[i].sealed || HoldsKeys(image[i])) ensures image[i - 1].sealed {
      assert virtual[i].sealed || HoldsKeys(virtual[i]);
    }
    PublishGrows(start, stored, part, landed, counted);
  }

  lemma PublishedLevelPointsRight(stored: Segment<int>, level: nat, part: ChainBatch, landed: set<Address>,
      counted: set<nat>, name: ChainName, capsules: seq<Capsule>, hash: Hash)
    requires AllPointRight(stored.slots, name, capsules, hash)
    requires AllPointRight(VirtualSlots(stored.slots, level, part.slots), name, capsules, hash)
    ensures AllPointRight(PublishLevel(stored, level, part, landed, counted).slots, name, capsules, hash)
  {
    var image, virtual := PublishLevel(stored, level, part, landed, counted).slots,
      VirtualSlots(stored.slots, level, part.slots);
    forall s | 0 <= s < |image| ensures PointsRight(image[s], name, capsules, hash) {
      assert PointsRight(stored.slots[s], name, capsules, hash) && PointsRight(virtual[s], name, capsules, hash);
    }
  }

  lemma PublishedLevelHolds(stored: Chain<int>, i: nat, part: ChainBatch, landed: set<Address>, counted: set<nat>)
    requires i < |stored|
    requires forall at :: at in part.slots && at.level == i ==> part.slots[at].Used?
    ensures HoldsKeys(Publish(stored, part, landed, counted)[i]) ==> HoldsKeys(Virtual(stored, part)[i])
  {
    var image, virtual := Publish(stored, part, landed, counted)[i], Virtual(stored, part)[i];
    if HoldsKeys(image) {
      var s :| 0 <= s < |image.slots| && image.slots[s].Used?;
      assert virtual.slots[s] == PendingSlot(stored[i].slots[s], Address(i, s), part.slots);
      assert virtual.slots[s].Used?;
    }
  }

  lemma PublishGrows(start: Chain<int>, stored: Chain<int>, part: ChainBatch, landed: set<Address>, counted: set<nat>)
    requires Resealed(start, stored)
    requires ChainGrows(start, Virtual(stored, part)) && SlotsKept(start, Virtual(stored, part))
    ensures ChainGrows(start, Publish(stored, part, landed, counted))
    ensures SlotsKept(start, Publish(stored, part, landed, counted))
  {
    var image, virtual := Publish(stored, part, landed, counted), Virtual(stored, part);
    forall i | 0 <= i < |start|
      ensures SlotsGrow(start[i].slots, image[i].slots) && LevelKept(start[i].slots, image[i].slots)
      ensures start[i].sealed ==> image[i].sealed && SlotsGrow(image[i].slots, start[i].slots)
    {
      assert SlotsGrow(start[i].slots, virtual[i].slots) && LevelKept(start[i].slots, virtual[i].slots);
      assert start[i].slots == stored[i].slots;
      assert start[i].sealed ==> SlotsGrow(virtual[i].slots, start[i].slots);
    }
  }

  // ----- what a prefix of a batch has achieved -----

  function SeenKeyOf(item: Item, hash: Hash): Option<SeenKey> {
    match hash(item.id)
    case None => None
    case Some(key) => Some(SeenKey(item.id.Space(), key))
  }

  /** No earlier row of the batch has the same key. */
  ghost predicate FirstOfKey(items: seq<Item>, j: nat, hash: Hash)
    requires j < |items|
  {
    forall k :: 0 <= k < j ==> SeenKeyOf(items[k], hash) != SeenKeyOf(items[j], hash)
  }

  ghost predicate CapsulesFrom(before: seq<Capsule>, after: seq<Capsule>, items: seq<Item>) {
    && before <= after
    && forall c :: |before| <= c < |after| ==> after[c].Torn? || after[c].item in items
  }

  ghost predicate Dealt(seen: map<SeenKey, Binding>, items: seq<Item>, n: nat, hash: Hash)
    requires n <= |items|
  {
    && (forall j :: 0 <= j < n ==> var sk := SeenKeyOf(items[j], hash);
         sk.Some? && sk.value in seen && seen[sk.value] == items[j].binding)
    && (forall sk :: sk in seen ==> exists j :: 0 <= j < n && SeenKeyOf(items[j], hash) == Some(sk))
  }

  ghost predicate FirstsBound(disk: Disk, items: seq<Item>, n: nat, powers: seq<nat>, hash: Hash)
    requires n <= |items| && Lawful(disk, powers, hash)
  {
    forall j :: 0 <= j < n && FirstOfKey(items, j, hash) ==>
      match SeenKeyOf(items[j], hash)
      case None => false
      case Some(sk) => Lookup(disk, powers, hash, sk.space, sk.key) == Some(items[j])
  }

  ghost predicate UnseenKept(before: Disk, after: Disk, seen: map<SeenKey, Binding>, powers: seq<nat>, hash: Hash)
    requires Lawful(before, powers, hash) && Lawful(after, powers, hash)
  {
    forall s, key: Key :: SeenKey(s, key) !in seen ==>
      Lookup(after, powers, hash, s, key) == Lookup(before, powers, hash, s, key)
  }

  ghost predicate Progress(start: Disk, disk: Disk, batch: Batch, items: seq<Item>, n: nat, powers: seq<nat>,
      hash: Hash)
  {
    && n <= |items|
    && Lawful(start, powers, hash) && BatchHolds(disk, batch, powers, hash)
    && Lawful(VirtualDisk(disk, batch), powers, hash)
    && SealsOnly(start, disk) && Grows(start, VirtualDisk(disk, batch))
    && CapsulesFrom(start.capsules, disk.capsules, items)
    && Dealt(batch.seen, items, n, hash)
    && FirstsBound(VirtualDisk(disk, batch), items, n, powers, hash)
    && (CleanDisk(start, powers) ==>
         && AllUncrashed(disk, batch, powers)
         && UnseenKept(start, VirtualDisk(disk, batch), batch.seen, powers, hash))
  }

  lemma DealtStep(seen: map<SeenKey, Binding>, items: seq<Item>, n: nat, hash: Hash)
    requires n < |items| && Dealt(seen, items, n, hash) && SeenKeyOf(items[n], hash).Some?
    requires var sk := SeenKeyOf(items[n], hash).value; sk in seen ==> seen[sk] == items[n].binding
    ensures Dealt(seen[SeenKeyOf(items[n], hash).value := items[n].binding], items, n + 1, hash)
  {
    var sk := SeenKeyOf(items[n], hash).value;
    forall other | other in seen[sk := items[n].binding]
      ensures exists j :: 0 <= j < n + 1 && SeenKeyOf(items[j], hash) == Some(other)
    {
      if other == sk {
        assert SeenKeyOf(items[n], hash) == Some(other);
      } else {
        var j :| 0 <= j < n && SeenKeyOf(items[j], hash) == Some(other);
      }
    }
  }

  lemma FirstIsUnseen(seen: map<SeenKey, Binding>, items: seq<Item>, n: nat, hash: Hash)
    requires n < |items| && Dealt(seen, items, n, hash) && FirstOfKey(items, n, hash) && SeenKeyOf(items[n], hash).Some?
    ensures SeenKeyOf(items[n], hash).value !in seen
  {
  }

  lemma FirstsBoundStep(before: Disk, after: Disk, seen: map<SeenKey, Binding>, items: seq<Item>, n: nat, key: Key,
      powers: seq<nat>, hash: Hash)
    requires n < |items| && Lawful(before, powers, hash) && Lawful(after, powers, hash)
    requires FirstsBound(before, items, n, powers, hash) && Dealt(seen, items, n, hash)
    requires hash(items[n].id) == Some(key) && StagedTo(before, after, seen, key, items[n], powers, hash)
    ensures FirstsBound(after, items, n + 1, powers, hash)
  {
    hide Lawful, Lookup, Grows, FirstOfKey;
    if FirstOfKey(items, n, hash) { FirstIsUnseen(seen, items, n, hash); }
    forall j | 0 <= j < n + 1 && FirstOfKey(items, j, hash)
      ensures SeenKeyOf(items[j], hash).Some? && var sk := SeenKeyOf(items[j], hash).value;
              Lookup(after, powers, hash, sk.space, sk.key) == Some(items[j])
    {
      if j < n {
        var sk := SeenKeyOf(items[j], hash).value;
        LookupIsStable(before, after, powers, hash, sk.space, sk.key);
      }
    }
  }

  lemma UnseenKeptStep(start: Disk, before: Disk, after: Disk, seen: map<SeenKey, Binding>, key: Key, item: Item,
      powers: seq<nat>, hash: Hash)
    requires Lawful(start, powers, hash) && Lawful(before, powers, hash) && Lawful(after, powers, hash)
    requires UnseenKept(start, before, seen, powers, hash)
    requires OthersKept(before, after, key, item.id.Space(), powers, hash)
    ensures UnseenKept(start, after, seen[SeenKey(item.id.Space(), key) := item.binding], powers, hash)
  {}

  lemma StagedBinding(before: Disk, after: Disk, seen: map<SeenKey, Binding>, key: Key, item: Item,
      powers: seq<nat>, hash: Hash)
    requires Lawful(before, powers, hash) && Lawful(after, powers, hash)
    requires SeenAreBound(before, seen, powers, hash) && StagedTo(before, after, seen, key, item, powers, hash)
    ensures var sk := SeenKey(item.id.Space(), key); sk in seen ==> seen[sk] == item.binding
  {
    if SeenKey(item.id.Space(), key) in seen {
      LookupIsStable(before, after, powers, hash, item.id.Space(), key);
    }
  }

  lemma CapsulesFromStep(start: seq<Capsule>, before: seq<Capsule>, after: seq<Capsule>, items: seq<Item>, n: nat)
    requires n < |items| && CapsulesFrom(start, before, items)
    requires after == before || after == before + [Whole(items[n])]
    ensures CapsulesFrom(start, after, items)
  {}

  lemma ProgressStep(start: Disk, disk: Disk, batch: Batch, disk': Disk, batch': Batch, items: seq<Item>, n: nat,
      key: Key, powers: seq<nat>, hash: Hash)
    requires n < |items| && Progress(start, disk, batch, items, n, powers, hash)
    requires hash(items[n].id) == Some(key)
    requires ItemStep(disk, batch, disk', batch', None, items[n], key, powers, hash)
    ensures Progress(start, disk', batch', items, n + 1, powers, hash)
  {
    hide LawfulChain, ChainSession, BatchFits, Lawful, SealsOnly, AllUncrashed, OthersKept, StagedTo, Grows, Dealt,
      FirstsBound, UnseenKept, CapsulesFrom, CleanDisk, SeenAreBound;
    var before, after := VirtualDisk(disk, batch), VirtualDisk(disk', batch');
    SealsOnlyTransitive(start, disk, disk');
    StagedGrows(before, after, batch.seen, key, items[n], powers, hash);
    GrowsTransitive(start, before, after);
    CapsulesFromStep(start.capsules, disk.capsules, disk'.capsules, items, n);
    StagedBinding(before, after, batch.seen, key, items[n], powers, hash);
    DealtStep(batch.seen, items, n, hash);
    FirstsBoundStep(before, after, batch.seen, items, n, key, powers, hash);
    if CleanDisk(start, powers) {
      UnseenKeptStep(start, before, after, batch.seen, key, items[n], powers, hash);
    }
  }

  /** One more item to come changes nothing about what was dealt with. */
  lemma ProgressExtends(start: Disk, disk: Disk, batch: Batch, items: seq<Item>, item: Item, powers: seq<nat>,
      hash: Hash)
    requires Progress(start, disk, batch, items, |items|, powers, hash)
    ensures Progress(start, disk, batch, items + [item], |items|, powers, hash)
  {
    hide BatchHolds, Lawful, SealsOnly, Grows, Lookup, AllUncrashed, UnseenKept, CleanDisk, SeenKeyOf, Dealt,
         FirstsBound, CapsulesFrom, VirtualDisk;
    CapsulesFromExtends(start.capsules, disk.capsules, items, item);
    DealtExtends(batch.seen, items, item, hash);
    FirstsBoundExtends(VirtualDisk(disk, batch), items, item, powers, hash);
  }

  lemma CapsulesFromExtends(before: seq<Capsule>, after: seq<Capsule>, items: seq<Item>, item: Item)
    requires CapsulesFrom(before, after, items)
    ensures CapsulesFrom(before, after, items + [item])
  {
    forall c | |before| <= c < |after| ensures after[c].Torn? || after[c].item in items + [item] {
      assert after[c].Torn? || after[c].item in items;
    }
  }

  lemma DealtExtends(seen: map<SeenKey, Binding>, items: seq<Item>, item: Item, hash: Hash)
    requires Dealt(seen, items, |items|, hash)
    ensures Dealt(seen, items + [item], |items|, hash)
  {
    hide SeenKeyOf;
    var more := items + [item];
    forall sk | sk in seen ensures exists j :: 0 <= j < |items| && SeenKeyOf(more[j], hash) == Some(sk) {
      var j :| 0 <= j < |items| && SeenKeyOf(items[j], hash) == Some(sk);
      assert more[j] == items[j];
    }
  }

  lemma FirstsBoundExtends(disk: Disk, items: seq<Item>, item: Item, powers: seq<nat>, hash: Hash)
    requires Lawful(disk, powers, hash) && FirstsBound(disk, items, |items|, powers, hash)
    ensures FirstsBound(disk, items + [item], |items|, powers, hash)
  {
    hide Lawful, Lookup, SeenKeyOf;
    var more := items + [item];
    forall j | 0 <= j < |items|
      ensures more[j] == items[j] && (FirstOfKey(more, j, hash) <==> FirstOfKey(items, j, hash))
    {
      assert forall k :: 0 <= k < j ==> more[k] == items[k];
    }
  }

  lemma StagedGrows(before: Disk, after: Disk, seen: map<SeenKey, Binding>, key: Key, item: Item, powers: seq<nat>,
      hash: Hash)
    requires Lawful(before, powers, hash) && Lawful(after, powers, hash)
    requires StagedTo(before, after, seen, key, item, powers, hash)
    ensures Grows(before, after)
  {}

  const NO_BATCH := Batch(map[], map[])

  lemma ProgressStart(disk: Disk, items: seq<Item>, powers: seq<nat>, hash: Hash)
    requires Lawful(disk, powers, hash)
    ensures Progress(disk, disk, NO_BATCH, items, 0, powers, hash)
  {
    assert VirtualDisk(disk, NO_BATCH) == disk by {
      forall name | name in disk.chains ensures Virtual(disk.chains[name], NO_BATCH.On(name)) == disk.chains[name] {
        NothingIsVirtual(disk.chains[name]);
      }
    }
    forall name | name in disk.chains
      ensures ChainSession(disk.chains[name], NO_BATCH.On(name), name, disk.capsules, powers, hash)
    {
      NothingIsVirtual(disk.chains[name]);
    }
    NothingChanged(disk);
    if CleanDisk(disk, powers) {
      forall name | name in disk.chains ensures Uncrashed(disk.chains[name], NO_BATCH.On(name), powers) {
        NothingIsVirtual(disk.chains[name]);
      }
    }
  }

  function PartOf<T>(all: set<(ChainName, T)>, name: ChainName): set<T> {
    set pair | pair in all && pair.0 == name :: pair.1
  }

  function PublishDisk(disk: Disk, batch: Batch, landed: set<(ChainName, Address)>,
      counted: set<(ChainName, nat)>): Disk
  {
    Disk(map name | name in disk.chains ::
           Publish(disk.chains[name], batch.On(name), PartOf(landed, name), PartOf(counted, name)), disk.capsules)
  }

  /** After a crash at the publication every chain is lawful and every answer given before still stands. */
  lemma PublishedDiskIsLawful(start: Disk, disk: Disk, batch: Batch, items: seq<Item>, n: nat,
      landed: set<(ChainName, Address)>, counted: set<(ChainName, nat)>, powers: seq<nat>, hash: Hash)
    requires Progress(start, disk, batch, items, n, powers, hash)
    ensures Lawful(PublishDisk(disk, batch, landed, counted), powers, hash)
    ensures Grows(start, PublishDisk(disk, batch, landed, counted))
  {
    var image := PublishDisk(disk, batch, landed, counted);
    forall name | name in disk.chains
      ensures LawfulChain(image.chains[name], name, image.capsules, powers, hash)
      ensures ChainGrows(ChainAt(start.chains, name), image.chains[name])
      ensures SlotsKept(ChainAt(start.chains, name), image.chains[name])
    {
      PublishedChain(start, disk, batch, name, PartOf(landed, name), PartOf(counted, name), powers, hash);
    }
  }

  lemma PublishedChain(start: Disk, disk: Disk, batch: Batch, name: ChainName, landed: set<Address>, counted: set<nat>,
      powers: seq<nat>, hash: Hash)
    requires BatchFits(disk, batch, powers, hash) && name in disk.chains
    requires SealsOnly(start, disk) && Grows(start, VirtualDisk(disk, batch))
    ensures var image := Publish(disk.chains[name], batch.On(name), landed, counted);
            && LawfulChain(image, name, disk.capsules, powers, hash)
            && ChainGrows(ChainAt(start.chains, name), image) && SlotsKept(ChainAt(start.chains, name), image)
  {
    assert Resealed(ChainAt(start.chains, name), disk.chains[name]);
    PublishIsLawful(ChainAt(start.chains, name), disk.chains[name], batch.On(name), landed, counted, name,
      disk.capsules,
                    powers, hash);
  }

  function EverySlot(batch: Batch): set<(ChainName, Address)> {
    set name, at | name in batch.touched && at in batch.touched[name].slots :: (name, at)
  }

  function EveryLevel(batch: Batch): set<(ChainName, nat)> {
    set name, i | name in batch.touched && i in batch.touched[name].states :: (name, i)
  }

  lemma PublishEverything(disk: Disk, batch: Batch, powers: seq<nat>, hash: Hash)
    requires BatchFits(disk, batch, powers, hash)
    ensures PublishDisk(disk, batch, EverySlot(batch), EveryLevel(batch)) == VirtualDisk(disk, batch)
  {
    forall name | name in disk.chains
      ensures Publish(disk.chains[name], batch.On(name), PartOf(EverySlot(batch), name),
                PartOf(EveryLevel(batch), name))
           == Virtual(disk.chains[name], batch.On(name))
    {
      PartOfEverySlot(batch, name);
      PublishAll(disk.chains[name], batch.On(name));
    }
  }

  lemma PartOfEverySlot(batch: Batch, name: ChainName)
    ensures PartOf(EverySlot(batch), name) == batch.On(name).slots.Keys
    ensures PartOf(EveryLevel(batch), name) == batch.On(name).states.Keys
  {
    forall at | at in batch.On(name).slots.Keys ensures at in PartOf(EverySlot(batch), name) {
      assert (name, at) in EverySlot(batch);
    }
    forall i | i in batch.On(name).states.Keys ensures i in PartOf(EveryLevel(batch), name) {
      assert (name, i) in EveryLevel(batch);
    }
  }

  lemma PublishNothing(stored: Chain<int>, landed: set<Address>, counted: set<nat>)
    ensures Publish(stored, NOTHING, landed, counted) == stored
  {
    forall i | 0 <= i < |stored| ensures Publish(stored, NOTHING, landed, counted)[i] == stored[i] {
      assert PublishLevel(stored[i], i, NOTHING, landed, counted).slots == stored[i].slots;
    }
  }

  // ----- what a crash leaves of the disk a batch saw -----

  /** A slot that landed is the one the batch saw; any other is as it was before the batch. */
  function LandedSlot(start: Chain<int>, view: Slot<int>, at: Address, landed: set<Address>): Slot<int> {
    if at in landed then view
    else if at.level < |start| && at.slot < |start[at.level].slots| then start[at.level].slots[at.slot]
    else Vacant
  }

  /** Levels are closed as the batch closed them, however few of its slots landed. */
  ghost predicate CrashLevel(start: Chain<int>, view: Segment<int>, image: Segment<int>, i: nat, landed: set<Address>) {
    && image.sealed == view.sealed && image.count <= view.count && |image.slots| == |view.slots|
    && forall s :: 0 <= s < |view.slots| ==>
         image.slots[s] == LandedSlot(start, view.slots[s], Address(i, s), landed)
  }

  ghost predicate CrashChain(start: Chain<int>, view: Chain<int>, image: Chain<int>, landed: set<Address>) {
    |image| == |view| && forall i :: 0 <= i < |view| ==> CrashLevel(start, view[i], image[i], i, landed)
  }

  /** `image` is what a crash leaves of a batch that began at `start` and had come to see `view`. */
  ghost predicate CrashOf(start: Disk, view: Disk, image: Disk, landed: set<(ChainName, Address)>) {
    && image.chains.Keys == view.chains.Keys
    && start.capsules <= image.capsules && (image.capsules == view.capsules || landed == {})
    && forall name :: name in view.chains ==>
         CrashChain(ChainAt(start.chains, name), view.chains[name], image.chains[name], PartOf(landed, name))
  }

  lemma PublishIsCrash(start: Chain<int>, stored: Chain<int>, part: ChainBatch, landed: set<Address>,
      counted: set<nat>, name: ChainName, capsules: seq<Capsule>, powers: seq<nat>, hash: Hash)
    requires ChainSession(stored, part, name, capsules, powers, hash) && Resealed(start, stored)
    ensures CrashChain(start, Virtual(stored, part), Publish(stored, part, landed, counted), landed)
  {
    hide LawfulChain;
    var view, image := Virtual(stored, part), Publish(stored, part, landed, counted);
    forall i | 0 <= i < |view| ensures CrashLevel(start, view[i], image[i], i, landed) {
      assert view[i] == VirtualSegment(stored[i], i, part);
      PublishedCrash(start, stored[i], i, part, landed, counted);
    }
  }

  lemma PublishedCrash(start: Chain<int>, stored: Segment<int>, i: nat, part: ChainBatch, landed: set<Address>,
      counted: set<nat>)
    requires if i < |start| then stored.slots == start[i].slots else !HoldsKeys(stored)
    requires i in part.states ==> part.states[i].sealed == stored.sealed && stored.count <= part.states[i].count
    ensures CrashLevel(start, VirtualSegment(stored, i, part), PublishLevel(stored, i, part, landed, counted), i,
                       landed)
  {
    var view, image := VirtualSegment(stored, i, part), PublishLevel(stored, i, part, landed, counted);
    forall s | 0 <= s < |view.slots|
      ensures image.slots[s] == LandedSlot(start, view.slots[s], Address(i, s), landed)
    {
      assert view.slots[s] == PendingSlot(stored.slots[s], Address(i, s), part.slots);
    }
  }

  /** A crash of the publication. */
  lemma PublishedDiskIsCrash(start: Disk, disk: Disk, batch: Batch, items: seq<Item>, n: nat,
      landed: set<(ChainName, Address)>, counted: set<(ChainName, nat)>, powers: seq<nat>, hash: Hash)
    requires Progress(start, disk, batch, items, n, powers, hash)
    ensures CrashOf(start, VirtualDisk(disk, batch), PublishDisk(disk, batch, landed, counted), landed)
  {
    hide CrashChain, ChainSession, Grows, Publish, Virtual, UnseenKept, AllUncrashed, FirstsBound, Dealt, SeenAreBound,
         Resealed, PendingAreSeen;
    forall name | name in disk.chains
      ensures CrashChain(ChainAt(start.chains, name), Virtual(disk.chains[name], batch.On(name)),
                Publish(disk.chains[name], batch.On(name), PartOf(landed, name), PartOf(counted, name)),
                PartOf(landed, name))
    {
      assert Resealed(ChainAt(start.chains, name), disk.chains[name]);
      assert ChainSession(disk.chains[name], batch.On(name), name, disk.capsules, powers, hash);
      PublishIsCrash(ChainAt(start.chains, name), disk.chains[name], batch.On(name), PartOf(landed, name),
        PartOf(counted, name), name, disk.capsules, powers, hash);
    }
  }

  /** A crash of the staging: no slot landed, and the tail of the capsules may be lost. */
  lemma StagedDiskIsCrash(start: Disk, disk: Disk, batch: Batch, items: seq<Item>, n: nat, tail: seq<Capsule>,
      powers: seq<nat>, hash: Hash)
    requires Progress(start, disk, batch, items, n, powers, hash)
    ensures CrashOf(start, VirtualDisk(disk, batch), Disk(disk.chains, start.capsules + tail), {})
  {
    PublishedDiskIsCrash(start, disk, batch, items, n, {}, {}, powers, hash);
    forall name | name in disk.chains
      ensures Publish(disk.chains[name], batch.On(name), PartOf({}, name), PartOf({}, name)) == disk.chains[name]
    {
      PublishNoPart(disk.chains[name], batch.On(name), PartOf({}, name), PartOf({}, name));
    }
  }

  lemma PublishNoPart(stored: Chain<int>, part: ChainBatch, landed: set<Address>, counted: set<nat>)
    requires landed == {} && counted == {}
    ensures Publish(stored, part, landed, counted) == stored
  {
    forall i | 0 <= i < |stored| ensures Publish(stored, part, landed, counted)[i] == stored[i] {
      assert PublishLevel(stored[i], i, part, landed, counted).slots == stored[i].slots;
    }
  }

  // ----- what a put promises -----

  /** Every row is bound; each first row of a key under its own identity; on an uncrashed disk nothing else moved. */
  ghost predicate BatchStored(before: Disk, after: Disk, items: seq<Item>, powers: seq<nat>, hash: Hash) {
    && Lawful(before, powers, hash) && Lawful(after, powers, hash) && Grows(before, after)
    && FirstsBound(after, items, |items|, powers, hash)
    && (forall j :: 0 <= j < |items| ==> RowBound(after, items[j], powers, hash))
    && (CleanDisk(before, powers) ==> CleanDisk(after, powers) && OnlyItemsMoved(before, after, items, powers, hash))
  }

  ghost predicate RowBound(disk: Disk, item: Item, powers: seq<nat>, hash: Hash)
    requires Lawful(disk, powers, hash)
  {
    match hash(item.id)
    case None => false
    case Some(key) =>
      var bound := Lookup(disk, powers, hash, item.id.Space(), key);
      bound.Some? && bound.value.binding == item.binding
  }

  ghost predicate OnlyItemsMoved(before: Disk, after: Disk, items: seq<Item>, powers: seq<nat>, hash: Hash)
    requires Lawful(before, powers, hash) && Lawful(after, powers, hash)
  {
    forall s, key: Key :: (forall j :: 0 <= j < |items| ==> SeenKeyOf(items[j], hash) != Some(SeenKey(s, key))) ==>
      Lookup(after, powers, hash, s, key) == Lookup(before, powers, hash, s, key)
  }

  lemma ProgressIsStored(start: Disk, disk: Disk, batch: Batch, items: seq<Item>, powers: seq<nat>, hash: Hash)
    requires Progress(start, disk, batch, items, |items|, powers, hash)
    ensures BatchStored(start, VirtualDisk(disk, batch), items, powers, hash)
  {
    var after := VirtualDisk(disk, batch);
    forall j | 0 <= j < |items| ensures RowBound(after, items[j], powers, hash) {
      var sk := SeenKeyOf(items[j], hash).value;
      assert sk in batch.seen;
      assert SeenAreBound(after, batch.seen, powers, hash);
    }
    if CleanDisk(start, powers) {
      forall n | n in after.chains ensures Clean(after.chains[n], powers) {
        assert Uncrashed(disk.chains[n], batch.On(n), powers);
      }
      UnseenAreOnlyItems(start, after, batch.seen, items, powers, hash);
    }
  }

  lemma UnseenAreOnlyItems(before: Disk, after: Disk, seen: map<SeenKey, Binding>, items: seq<Item>, powers: seq<nat>,
      hash: Hash)
    requires Lawful(before, powers, hash) && Lawful(after, powers, hash)
    requires UnseenKept(before, after, seen, powers, hash) && Dealt(seen, items, |items|, hash)
    ensures OnlyItemsMoved(before, after, items, powers, hash)
  {
    forall s, key: Key | forall j :: 0 <= j < |items| ==> SeenKeyOf(items[j], hash) != Some(SeenKey(s, key))
      ensures Lookup(after, powers, hash, s, key) == Lookup(before, powers, hash, s, key)
    {
      assert SeenKey(s, key) !in seen;
    }
  }

  /** A put that did not publish: only seals, and perhaps capsules nobody points at. */
  ghost predicate NothingStored(before: Disk, after: Disk, powers: seq<nat>, hash: Hash) {
    && Lawful(before, powers, hash) && Lawful(after, powers, hash) && SealsOnly(before, after)
    && (CleanDisk(before, powers) ==> CleanDisk(after, powers))
  }

  lemma StagingIsNothing(start: Disk, disk: Disk, batch: Batch, after: Disk, items: seq<Item>, n: nat,
      powers: seq<nat>, hash: Hash)
    requires Progress(start, disk, batch, items, n, powers, hash)
    requires SealsOnly(disk, after) && Lawful(after, powers, hash)
    requires AllUncrashed(disk, batch, powers) ==> AllWithinLoad(after, powers)
    ensures NothingStored(start, after, powers, hash)
  {
    SealsOnlyTransitive(start, disk, after);
    if CleanDisk(start, powers) { SealsOnlyKeepsClean(start, after, powers, hash); }
  }

  /** Losing capsules of an unfinished batch, with or without a torn one at the end, hurts no reader. */
  lemma LostTailIsNothing(start: Disk, disk: Disk, tail: seq<Capsule>, powers: seq<nat>, hash: Hash)
    requires Lawful(start, powers, hash) && Lawful(disk, powers, hash) && SealsOnly(start, disk)
    ensures var after := Disk(disk.chains, start.capsules + tail);
            Lawful(after, powers, hash) && SealsOnly(start, after)
  {
    var after := Disk(disk.chains, start.capsules + tail);
    forall name | name in disk.chains
      ensures LawfulChain(disk.chains[name], name, after.capsules, powers, hash)
    {
      var before, now := ChainAt(start.chains, name), disk.chains[name];
      assert Resealed(before, now);
      if name in start.chains { MoreCapsulesKeepLawful(before, name, start.capsules, after.capsules, powers, hash); }
      forall i | 0 <= i < |now| ensures AllPointRight(now[i].slots, name, after.capsules, hash) {
        if i >= |before| { NoKeysPointRight(now[i], name, after.capsules, hash); }
      }
    }
  }

  lemma ProgressWithinLoad(start: Disk, disk: Disk, batch: Batch, items: seq<Item>, n: nat, powers: seq<nat>,
      hash: Hash)
    requires Progress(start, disk, batch, items, n, powers, hash)
    ensures Lawful(disk, powers, hash)
    ensures AllUncrashed(disk, batch, powers) ==> AllWithinLoad(disk, powers)
  {
    BatchFitsLawful(disk, batch, powers, hash);
    if AllUncrashed(disk, batch, powers) { UncrashedWithinLoad(disk, batch, powers); }
  }

  lemma ProgressFits(start: Disk, disk: Disk, batch: Batch, items: seq<Item>, n: nat, powers: seq<nat>, hash: Hash)
    requires Progress(start, disk, batch, items, n, powers, hash)
    ensures BatchFits(disk, batch, powers, hash) && batch.touched.Keys <= disk.chains.Keys
    ensures CapsulesFrom(start.capsules, disk.capsules, items)
  {}

  lemma RejectedItem(start: Disk, disk: Disk, batch: Batch, after: Disk, batch': Batch, error: Error, items: seq<Item>,
      n: nat, key: Key, powers: seq<nat>, hash: Hash)
    requires n < |items| && Progress(start, disk, batch, items, n, powers, hash)
    requires ItemStep(disk, batch, after, batch', Some(error), items[n], key, powers, hash)
    ensures NothingStored(start, after, powers, hash)
    ensures CapsulesFrom(start.capsules, after.capsules, items)
  {
    StagingIsNothing(start, disk, batch, after, items, n, powers, hash);
    CapsulesFromStep(start.capsules, disk.capsules, after.capsules, items, n);
  }

  /** Of two staged slots the second one alone reaches the disk. */
  lemma HoleSlots(a: Slot<int>, b: Slot<int>, stored: Segment<int>, states: map<nat, LevelState>)
    requires stored == Segment([Vacant, Vacant, Vacant, Vacant, Vacant, Vacant, Vacant, Vacant], 0, false)
    ensures var part := ChainBatch(map[Address(0, 0) := a, Address(0, 1) := b], states);
            PublishLevel(stored, 0, part, {Address(0, 1)}, {})
            == Segment([Vacant, b, Vacant, Vacant, Vacant, Vacant, Vacant, Vacant], 0, false)
  {
  }

  /** A crash can leave such a hole: two keys of one path are staged, and only the second slot lands. */
  lemma CrashLeavesHole()
    ensures var part := ChainBatch(map[Address(0, 0) := Used(Low(1), 0), Address(0, 1) := Used(Low(2), 1)],
                                   map[0 := LevelState(2, false)]);
            Publish([Fresh(3)], part, {Address(0, 1)}, {}) == SecondOnly(1)
  {
    LowProbe(1, 0);
    hide Low, Pow2, PublishLevel, SlotAt, HoldsKeys;
    HoleSlots(Used(Low(1), 0), Used(Low(2), 1), Fresh(3), map[0 := LevelState(2, false)]);
  }

  // ----- finding and staging an item -----

  /** Where the item of a key lies, by the reader's walk. */
  ghost function Offset(disk: Disk, powers: seq<nat>, hash: Hash, space: Namespace, key: Key): (offset: Option<int>)
    requires Lawful(disk, powers, hash)
    ensures offset.Some? ==> 0 <= offset.value < |disk.capsules| && disk.capsules[offset.value].Whole?
    ensures Lookup(disk, powers, hash, space, key)
         == match offset case None => None case Some(o) => Some(disk.capsules[o].item)
  {
    var chain := ChainAt(disk.chains, NameOf(space, key));
    match Seek(chain, powers, key, 0)
    case Nowhere => None
    case At(level, slot) =>
      assert AllPointRight(chain[level].slots, NameOf(space, key), disk.capsules, hash);
      Some(chain[level].slots[slot].payload)
  }

  lemma OffsetIsStable(before: Disk, after: Disk, powers: seq<nat>, hash: Hash, space: Namespace, key: Key)
    requires Lawful(before, powers, hash) && Lawful(after, powers, hash) && Grows(before, after)
    requires Offset(before, powers, hash, space, key).Some?
    ensures Offset(after, powers, hash, space, key) == Offset(before, powers, hash, space, key)
  {
    hide AllPointRight, LawfulStates, Routed, HoldsKeys, ProbeFrom;
    var name := NameOf(space, key);
    SeekOfLawful(before, after, powers, hash, name, key);
    var place := Seek(before.chains[name], powers, key, 0);
    assert LevelKept(before.chains[name][place.level].slots, after.chains[name][place.level].slots);
  }

  lemma SeekOfLawful(before: Disk, after: Disk, powers: seq<nat>, hash: Hash, name: ChainName, key: Key)
    requires Lawful(before, powers, hash) && Lawful(after, powers, hash) && Grows(before, after)
             && name in before.chains
    requires Seek(before.chains[name], powers, key, 0).At?
    ensures Seek(after.chains[name], powers, key, 0) == Seek(before.chains[name], powers, key, 0)
  {
    SeekIsStable(before.chains[name], after.chains[name], powers, key, 0);
  }

  lemma SealsOnlyKeepsOffsets(before: Disk, after: Disk, powers: seq<nat>, hash: Hash, space: Namespace, key: Key)
    requires Lawful(before, powers, hash) && Lawful(after, powers, hash) && SealsOnly(before, after)
    ensures Offset(after, powers, hash, space, key) == Offset(before, powers, hash, space, key)
  {
    hide AllPointRight, LawfulStates, HoldsKeys, ProbeFrom;
    SealsOnlyKeepsLookups(before, after, powers, hash, space, key);
    SealsOnlyGrows(before, after);
    if Offset(before, powers, hash, space, key).Some? { OffsetIsStable(before, after, powers, hash, space, key); }
  }

  /** The slot the walk found, pending or stored, is what a reader of the batch's view finds. */
  lemma ExistingInView(disk: Disk, batch: Batch, space: Namespace, key: Key, level: nat, slot: nat, powers: seq<nat>,
      hash: Hash)
    requires BatchFits(disk, batch, powers, hash) && NameOf(space, key) in disk.chains
    requires var name := NameOf(space, key);
             && Shaped(Virtual(disk.chains[name], batch.On(name)), powers)
             && Seek(Virtual(disk.chains[name], batch.On(name)), powers, key, 0) == At(level, slot)
    ensures var name := NameOf(space, key);
            && level < |disk.chains[name]| && slot < |disk.chains[name][level].slots|
            && var used := PendingSlot(disk.chains[name][level].slots[slot], Address(level, slot),
                 batch.On(name).slots);
               && used.Used? && 0 <= used.payload < |disk.capsules| && disk.capsules[used.payload].Whole?
               && Lawful(VirtualDisk(disk, batch), powers, hash)
               && Offset(VirtualDisk(disk, batch), powers, hash, space, key) == Some(used.payload)
  {
    var name := NameOf(space, key);
    BatchFitsLawful(disk, batch, powers, hash);
    assert ChainSession(disk.chains[name], batch.On(name), name, disk.capsules, powers, hash);
    assert AllPointRight(Virtual(disk.chains[name], batch.On(name))[level].slots, name, disk.capsules, hash);
    assert PointsRight(Virtual(disk.chains[name], batch.On(name))[level].slots[slot], name, disk.capsules, hash);
  }

  /** A placed item is found at its own offset. */
  lemma PlacedOffset(before: Disk, disk: Disk, batch: Batch, level: nat, slot: nat, key: Key, item: Item,
      powers: seq<nat>, hash: Hash)
    requires Lawful(before, powers, hash) && BatchFits(disk, batch, powers, hash)
    requires hash(item.id) == Some(key) && NameOf(item.id.Space(), key) in disk.chains
    requires before.capsules == disk.capsules
    requires var name := NameOf(item.id.Space(), key);
             && OnlyAt(before.chains, VirtualDisk(disk, batch).chains, name)
             && Chosen(ChainAt(before.chains, name), Virtual(disk.chains[name], batch.On(name)), powers, key, level,
                  slot)
    ensures var name := NameOf(item.id.Space(), key);
            var after := VirtualDisk(Disk(disk.chains, disk.capsules + [Whole(item)]),
                                     Placed(batch, name, level, slot, key, item, |disk.capsules|));
            && Lawful(after, powers, hash)
            && Offset(after, powers, hash, item.id.Space(), key) == Some(|disk.capsules|)
  {
    hide BatchFits, LawfulChain, ChainSession, Chosen, Grows, OnlyAt, InsertedAt, Virtual, ProbeFrom;
    var name := NameOf(item.id.Space(), key);
    var mid := Virtual(disk.chains[name], batch.On(name));
    var after := VirtualDisk(Disk(disk.chains, disk.capsules + [Whole(item)]),
                             Placed(batch, name, level, slot, key, item, |disk.capsules|));
    PlaceIsInsert(before, disk, batch, level, slot, key, item, powers, hash);
    InsertBinds(before, after, mid, level, slot, key, item, powers, hash);
    InsertedFacts(before, after, mid, level, slot, key, item, powers, hash);
  }

  /** One level after another until the answer is settled. */
  method SeekKey(chain: Chain<int>, powers: seq<nat>, key: Key) returns (place: Place)
    requires Shaped(chain, powers)
    ensures place == Seek(chain, powers, key, 0)
  {
    hide ProbeSlots, VirtualSlots;
    var i := 0;
    while i < |powers|
      invariant 0 <= i <= |powers|
      invariant Seek(chain, powers, key, 0) == Seek(chain, powers, key, i)
    {
      if i >= |chain| { return Nowhere; }
      var probe := ProbePending(chain[i].slots, key, powers[i], i, map[]);
      NothingPending(chain[i].slots, i);
      match probe {
        case Full => i := i + 1;
        case Free(_) => if !chain[i].sealed { return Nowhere; } i := i + 1;
        case Found(s) => return At(i, s);
      }
    }
    place := Nowhere;
  }

  lemma NothingPending(slots: seq<Slot<int>>, level: nat)
    ensures VirtualSlots(slots, level, map[]) == slots
  {
  }

  /** Where a key's record lies, by the files alone. */
  method FindItem(disk: Disk, powers: seq<nat>, ghost hash: Hash, space: Namespace, key: Key)
    returns (offset: Option<int>)
    requires Lawful(disk, powers, hash)
    ensures offset == Offset(disk, powers, hash, space, key)
  {
    var chain := ChainAt(disk.chains, NameOf(space, key));
    var place := SeekKey(chain, powers, key);
    offset := match place case Nowhere => None case At(level, slot) => Some(chain[level].slots[slot].payload);
  }

  method WalkFor(disk: Disk, name: ChainName, key: Key, before: Batch, powers: seq<nat>, ghost hash: Hash)
    returns (disk': Disk, batch: Batch, selection: Selection)
    requires BatchFits(disk, before, powers, hash) && Usable(powers)
    ensures WalkStep(disk, before, disk', batch, name, key, selection, powers, hash)
    ensures RouteTaken(disk, before, disk', batch, name, key, selection, powers)
    ensures forall n :: batch.On(n).slots == before.On(n).slots
  {
    hide BatchFits, ChainSession, WalkStep, SealsOnly, Resealed, SelectionFits, Uncrashed, WithPart, Lawful,
         LawfulChain, Virtual, Walk, NoPlace, RouteTaken, Shaped;
    SessionOf(disk, before, name, powers, hash);
    var chain := ChainAt(disk.chains, name);
    AnyLevel(chain, before.On(name), name, disk.capsules, powers, hash);
    var chain', part;
    chain', part, selection := SelectSlot(chain, before.On(name), key, name, disk.capsules, powers, hash);
    SelectedFits(Virtual(chain, before.On(name)), Virtual(chain', part), key, selection, name, disk.capsules, powers,
      hash,
                 chain', part);
    WalkForStep(disk, before, chain', part, name, key, selection, powers, hash);
    disk' := Disk(disk.chains[name := chain'], disk.capsules);
    batch := WithPart(before, name, part);
    WithPartSlots(before, name, part);
    WalkedView(disk, before, chain', part, name, key, selection, powers, hash);
  }

  /** The batch's view changes in one chain, and there as the walk says. */
  ghost predicate RouteTaken(disk: Disk, before: Batch, disk': Disk, batch: Batch, name: ChainName, key: Key,
      selection: Selection, powers: seq<nat>) {
    && Usable(powers) && name in disk'.chains
    && var chain := ChainAt(VirtualDisk(disk, before).chains, name);
       var walked := Virtual(disk'.chains[name], batch.On(name));
       && Shaped(chain, powers) && Walk(chain, powers, key, 0) == Route(walked, selection)
       && VirtualDisk(disk', batch) == Disk(VirtualDisk(disk, before).chains[name := walked], disk.capsules)
  }

  lemma WalkedView(disk: Disk, before: Batch, chain: Chain<int>, part: ChainBatch, name: ChainName, key: Key,
      selection: Selection, powers: seq<nat>, hash: Hash)
    requires BatchFits(disk, before, powers, hash) && Usable(powers)
    requires var seen := Virtual(ChainAt(disk.chains, name), before.On(name));
             Shaped(seen, powers) && Walk(seen, powers, key, 0) == Route(Virtual(chain, part), selection)
    ensures RouteTaken(disk, before, Disk(disk.chains[name := chain], disk.capsules), WithPart(before, name, part),
                       name, key, selection, powers)
  {
    hide ChainSession, Walk, Shaped, Virtual, PendingAreSeen;
    var after, batch := Disk(disk.chains[name := chain], disk.capsules), WithPart(before, name, part);
    if name !in disk.chains { NothingIsVirtual([]); }
    assert batch.On(name) == part && forall n :: n != name ==> batch.On(n) == before.On(n);
  }

  /**
   One item of a batch: skipped when the batch has already dealt with its key, compared with the stored item
   when the key is on disk, and otherwise appended with a pending slot.
   */
  method StageItem(disk: Disk, item: Item, key: Key, before: Batch, powers: seq<nat>, ghost hash: Hash)
    returns (disk': Disk, batch: Batch, error: Option<Error>)
    requires BatchHolds(disk, before, powers, hash) && hash(item.id) == Some(key)
    requires Usable(powers)
    ensures ItemStep(disk, before, disk', batch, error, item, key, powers, hash)
    ensures StagedLike(disk, before, disk', batch, error, item, powers, hash)
  {
    hide ItemStep, PlacedLike, StagedLike, BatchHolds, BatchFits, Lawful;
    HeldIsLawful(disk, before, powers, hash);
    disk', batch, error := disk, before, None;
    var sk := SeenKey(item.id.Space(), key);
    if sk in before.seen {
      if before.seen[sk] != item.binding { error := Some(Conflict(item.id)); }
      SkipStep(disk, before, error, item, key, powers, hash);
      LikeSeen(disk, before, error, item, key, powers, hash);
      return;
    }
    var offset;
    disk', batch, offset, error := PlaceItem(disk, item, key, before, powers, hash);
    LikePlaced(disk, before, disk', batch, error, item, key, powers, hash);
  }

  /** On the disk the batch sees, staging a row is one row of the batch. */
  ghost predicate StagedLike(disk: Disk, before: Batch, disk': Disk, batch: Batch, error: Option<Error>, item: Item,
      powers: seq<nat>, hash: Hash) {
    && Lawful(VirtualDisk(disk, before), powers, hash) && Usable(powers)
    && StageOne(VirtualDisk(disk, before), before.seen, item, powers, hash) ==
         match error case None => Kept(VirtualDisk(disk', batch), batch.seen) case Some(e) => Fails(e)
  }

  lemma LikeSeen(disk: Disk, before: Batch, error: Option<Error>, item: Item, key: Key, powers: seq<nat>, hash: Hash)
    requires Lawful(VirtualDisk(disk, before), powers, hash) && Usable(powers) && hash(item.id) == Some(key)
    requires SeenKey(item.id.Space(), key) in before.seen
    requires error == if before.seen[SeenKey(item.id.Space(), key)] == item.binding then None
                      else Some(Conflict(item.id))
    ensures StagedLike(disk, before, disk, before, error, item, powers, hash)
  {
    hide PlaceOne, VirtualDisk, Lawful;
  }

  lemma LikePlaced(disk: Disk, before: Batch, disk': Disk, batch: Batch, error: Option<Error>, item: Item, key: Key,
      powers: seq<nat>, hash: Hash)
    requires PlacedLike(disk, before, disk', batch, error, item, key, powers, hash)
    requires ItemStep(disk, before, disk', batch, error, item, key, powers, hash)
    requires SeenKey(item.id.Space(), key) !in before.seen
    ensures StagedLike(disk, before, disk', batch, error, item, powers, hash)
  {
    hide PlaceOne, VirtualDisk, Lawful, StagedTo, OthersKept, BatchHolds, StagedQuietly;
  }

  /** Of the pending slots only one for `offset` may be new. */
  ghost predicate SlotsFrom(before: Batch, after: Batch, offset: int) {
    && (forall n,
         at :: at in before.On(n).slots ==> at in after.On(n).slots && after.On(n).slots[at] == before.On(n).slots[at])
    && (forall n, at :: at in after.On(n).slots && at !in before.On(n).slots ==>
         after.On(n).slots[at].Used? && after.On(n).slots[at].payload == offset)
  }

  ghost predicate IsPending(batch: Batch, offset: int) {
    exists n, at :: at in batch.On(n).slots && batch.On(n).slots[at].Used? && batch.On(n).slots[at].payload == offset
  }

  /** Where a placed item lies: found at `offset`, which is new exactly if its slot is. */
  ghost predicate PlacedAt(disk: Disk, before: Batch, disk': Disk, batch: Batch, offset: int, item: Item, key: Key,
      powers: seq<nat>, hash: Hash)
  {
    && SlotsFrom(before, batch, offset) && 0 <= offset <= |disk.capsules|
    && disk'.capsules == (if offset == |disk.capsules| then disk.capsules + [Whole(item)] else disk.capsules)
    && (offset == |disk.capsules| ==> IsPending(batch, offset))
    && (offset < |disk.capsules| ==> forall n :: batch.On(n).slots == before.On(n).slots)
    && Lawful(VirtualDisk(disk', batch), powers, hash)
    && Offset(VirtualDisk(disk', batch), powers, hash, item.id.Space(), key) == Some(offset)
    && disk'.capsules[offset] == Whole(item)
  }

  lemma HeldIsLawful(disk: Disk, batch: Batch, powers: seq<nat>, hash: Hash)
    requires BatchHolds(disk, batch, powers, hash)
    ensures BatchFits(disk, batch, powers, hash) && Lawful(VirtualDisk(disk, batch), powers, hash)
    ensures SeenAreBound(VirtualDisk(disk, batch), batch.seen, powers, hash)
  {
    BatchFitsLawful(disk, batch, powers, hash);
  }

  /** On the disk the batch sees, placing an item is one put. */
  ghost predicate PlacedLike(disk: Disk, before: Batch, disk': Disk, batch: Batch, error: Option<Error>, item: Item,
      key: Key, powers: seq<nat>, hash: Hash) {
    && Lawful(VirtualDisk(disk, before), powers, hash) && Usable(powers) && hash(item.id) == Some(key)
    && PlaceOne(VirtualDisk(disk, before), item, key, powers, hash) ==
         match error case None => Takes(VirtualDisk(disk', batch)) case Some(e) => Refuses(e)
  }

  lemma LikeNoRoom(disk: Disk, before: Batch, disk': Disk, walked: Batch, name: ChainName, item: Item, key: Key,
      powers: seq<nat>, hash: Hash)
    requires Lawful(VirtualDisk(disk, before), powers, hash) && hash(item.id) == Some(key)
    requires name == NameOf(item.id.Space(), key) && RouteTaken(disk, before, disk', walked, name, key, NoRoom, powers)
    ensures PlacedLike(disk, before, disk', walked, Some(CapacityExceeded), item, key, powers, hash)
  {
    hide Lawful, Walk, VirtualDisk, Virtual, WalkLeaves, Lookup, PlaceOne;
    var route := RouteOf(VirtualDisk(disk, before), item.id.Space(), key, powers, hash);
    NoRoomRefuses(VirtualDisk(disk, before), item, key, powers, hash);
  }

  lemma NoRoomRefuses(view: Disk, item: Item, key: Key, powers: seq<nat>, hash: Hash)
    requires Lawful(view, powers, hash) && Usable(powers) && hash(item.id) == Some(key)
    requires RouteOf(view, item.id.Space(), key, powers, hash).selection.NoRoom?
    ensures PlaceOne(view, item, key, powers, hash) == Refuses(CapacityExceeded)
  {
    hide Lawful, Walk, WalkLeaves, Lookup, RouteOf;
  }

  lemma LikeOpen(disk: Disk, before: Batch, disk': Disk, walked: Batch, name: ChainName, level: nat, slot: nat,
      item: Item, key: Key, powers: seq<nat>, hash: Hash)
    requires Lawful(VirtualDisk(disk, before), powers, hash) && hash(item.id) == Some(key)
    requires name == NameOf(item.id.Space(), key) && disk'.capsules == disk.capsules
    requires RouteTaken(disk, before, disk', walked, name, key, Open(level, slot), powers)
    ensures PlacedLike(disk, before, Disk(disk'.chains, disk'.capsules + [Whole(item)]),
                       Placed(walked, name, level, slot, key, item, |disk'.capsules|), None, item, key, powers, hash)
  {
    hide Lawful, Walk, WalkLeaves, Lookup, Virtual, PlaceOne, Shaped;
    var view := VirtualDisk(disk, before);
    var route := RouteOf(view, item.id.Space(), key, powers, hash);
    var batch := Placed(walked, name, level, slot, key, item, |disk'.capsules|);
    SameLength(disk'.chains[name], walked.On(name));
    StagedOn(disk', walked, name, level, slot, key, item);
    PlacedView(disk', walked, batch, name, Settled(route, key, |view.capsules|), item);
    OpenTakes(view, item, key, powers, hash);
  }

  lemma StagedOn(disk: Disk, walked: Batch, name: ChainName, level: nat, slot: nat, key: Key, item: Item)
    requires name in disk.chains && level < |disk.chains[name]| && slot < |disk.chains[name][level].slots|
    ensures |Virtual(disk.chains[name], walked.On(name))[level].slots| == |disk.chains[name][level].slots|
    ensures var batch := Placed(walked, name, level, slot, key, item, |disk.capsules|);
            && (forall n :: n != name ==> batch.On(n) == walked.On(n))
            && Virtual(disk.chains[name], batch.On(name))
               == WithSlot(Virtual(disk.chains[name], walked.On(name)), level, slot, Used(key, |disk.capsules|))
  {
    hide Virtual;
    var batch := Placed(walked, name, level, slot, key, item, |disk.capsules|);
    SameLength(disk.chains[name], walked.On(name));
    StageVirtual(disk.chains[name], walked.On(name), Address(level, slot), Used(key, |disk.capsules|));
    assert batch.On(name) == Stage(walked.On(name), Address(level, slot), Used(key, |disk.capsules|));
  }

  lemma OpenTakes(view: Disk, item: Item, key: Key, powers: seq<nat>, hash: Hash)
    requires Lawful(view, powers, hash) && Usable(powers) && hash(item.id) == Some(key)
    requires RouteOf(view, item.id.Space(), key, powers, hash).selection.Open?
    ensures var name, route := NameOf(item.id.Space(), key), RouteOf(view, item.id.Space(), key, powers, hash);
            PlaceOne(view, item, key, powers, hash)
            == Takes(Disk(view.chains[name := Settled(route, key, |view.capsules|)], view.capsules + [Whole(item)]))
  {
    hide Lawful, Walk, WalkLeaves, Lookup, RouteOf;
  }

  lemma SameViewLike(disk: Disk, before: Batch, disk': Disk, walked: Batch, batch: Batch, item: Item, key: Key,
      powers: seq<nat>, hash: Hash)
    requires PlacedLike(disk, before, disk', walked, None, item, key, powers, hash)
    requires VirtualDisk(disk', batch) == VirtualDisk(disk', walked)
    ensures PlacedLike(disk, before, disk', batch, None, item, key, powers, hash)
  {
    hide PlaceOne, VirtualDisk, Lawful;
  }

  lemma ViewCapsules(disk: Disk, batch: Batch)
    ensures VirtualDisk(disk, batch).capsules == disk.capsules
  {
  }

  lemma SameLength(stored: Chain<int>, batch: ChainBatch)
    ensures |Virtual(stored, batch)| == |stored|
    ensures forall i :: 0 <= i < |stored| ==> |Virtual(stored, batch)[i].slots| == |stored[i].slots|
  {
  }

  lemma PlacedView(disk: Disk, walked: Batch, batch: Batch, name: ChainName, chain: Chain<int>, item: Item)
    requires name in disk.chains && Virtual(disk.chains[name], batch.On(name)) == chain
    requires forall n :: n != name ==> batch.On(n) == walked.On(n)
    ensures VirtualDisk(Disk(disk.chains, disk.capsules + [Whole(item)]), batch)
         == Disk(VirtualDisk(disk, walked).chains[name := chain], disk.capsules + [Whole(item)])
  {
    hide Virtual;
  }

  lemma LikeExisting(disk: Disk, before: Batch, disk': Disk, walked: Batch, name: ChainName, level: nat, slot: nat,
      item: Item, key: Key, powers: seq<nat>, hash: Hash)
    requires Lawful(VirtualDisk(disk, before), powers, hash) && Lawful(VirtualDisk(disk', walked), powers, hash)
    requires name == NameOf(item.id.Space(), key) && disk'.capsules == disk.capsules && hash(item.id) == Some(key)
    requires RouteTaken(disk, before, disk', walked, name, key, Existing(level, slot), powers)
    requires Lookup(VirtualDisk(disk', walked), powers, hash, item.id.Space(), key).Some?
    ensures if Lookup(VirtualDisk(disk', walked), powers, hash, item.id.Space(), key) == Some(item)
            then PlacedLike(disk, before, disk', walked, None, item, key, powers, hash)
            else PlacedLike(disk, before, disk', walked, Some(Conflict(item.id)), item, key, powers, hash)
  {
    hide Lawful, Walk, WalkLeaves, Lookup, Virtual;
    WalkedIsLawful(VirtualDisk(disk, before), item.id.Space(), key, powers, hash);
  }

  /**
   The level walk and its outcome: reject, accept the item that lies there, or append the item and hold the slot.
   */
  method PlaceItem(disk: Disk, item: Item, key: Key, before: Batch, powers: seq<nat>, ghost hash: Hash)
    returns (disk': Disk, batch: Batch, offset: int, error: Option<Error>)
    requires BatchHolds(disk, before, powers, hash) && hash(item.id) == Some(key)
    requires Usable(powers)
    ensures ItemStep(disk, before, disk', batch, error, item, key, powers, hash)
    ensures PlacedLike(disk, before, disk', batch, error, item, key, powers, hash)
    ensures error == None ==> PlacedAt(disk, before, disk', batch, offset, item, key, powers, hash)
  {
    hide LawfulChain, ChainSession, BatchFits, Lawful, SealsOnly, AllUncrashed, ItemStep, WalkStep, PlacedAt,
         RouteTaken, PlacedLike, PlaceOne, BatchHolds, SeenAreBound, Lookup, Offset, Virtual, VirtualDisk, Seek, Shaped,
         ProbeSlots, Walk;
    HeldIsLawful(disk, before, powers, hash);
    var name := NameOf(item.id.Space(), key);
    var walked, selection;
    disk', walked, selection := WalkFor(disk, name, key, before, powers, hash);
    match selection {
      case NoRoom =>
        RejectStep(disk, before, disk', walked, name, selection, CapacityExceeded, item, key, powers, hash);
        LikeNoRoom(disk, before, disk', walked, name, item, key, powers, hash);
        return disk', walked, 0, Some(CapacityExceeded);
      case Open(level, slot) =>
        PlaceStep(disk, before, disk', walked, name, level, slot, item, key, powers, hash);
        OpenIsPlaced(disk, before, disk', walked, name, level, slot, item, key, powers, hash);
        LikeOpen(disk, before, disk', walked, name, level, slot, item, key, powers, hash);
        offset, error := |disk'.capsules|, None;
        batch := Placed(walked, name, level, slot, key, item, offset);
        disk' := Disk(disk'.chains, disk'.capsules + [Whole(item)]);
        return;
      case Existing(level, slot) =>
        WalkedToView(disk, before, disk', walked, name, level, slot, key, powers, hash);
        ExistingInView(disk', walked, item.id.Space(), key, level, slot, powers, hash);
        offset := PendingSlot(disk'.chains[name][level].slots[slot], Address(level, slot),
                    walked.On(name).slots).payload;
        ViewCapsules(disk', walked);
        LikeExisting(disk, before, disk', walked, name, level, slot, item, key, powers, hash);
        if disk'.capsules[offset].item != item {
          RejectStep(disk, before, disk', walked, name, selection, Conflict(item.id), item, key, powers, hash);
          return disk', walked, offset, Some(Conflict(item.id));
        }
        ExistingStep(disk, before, disk', walked, name, selection, item, key, powers, hash);
        batch := walked.(seen := walked.seen[SeenKey(item.id.Space(), key) := item.binding]);
        MoreSeenSameView(disk', walked, batch.seen);
        SameViewLike(disk, before, disk', walked, batch, item, key, powers, hash);
        ExistingIsPlaced(disk, before, disk', walked, batch, name, level, slot, offset, item, key, powers, hash);
        return disk', batch, offset, None;
    }
  }

  lemma WalkedToView(disk: Disk, before: Batch, disk': Disk, walked: Batch, name: ChainName, level: nat, slot: nat,
      key: Key, powers: seq<nat>, hash: Hash)
    requires WalkStep(disk, before, disk', walked, name, key, Existing(level, slot), powers, hash)
    ensures BatchFits(disk', walked, powers, hash) && name in disk'.chains && disk'.capsules == disk.capsules
    ensures Shaped(Virtual(disk'.chains[name], walked.On(name)), powers)
    ensures Seek(Virtual(disk'.chains[name], walked.On(name)), powers, key, 0) == At(level, slot)
  {
  }

  lemma WithPartSlots(before: Batch, name: ChainName, part: ChainBatch)
    requires part.slots == before.On(name).slots
    ensures forall n :: WithPart(before, name, part).On(n).slots == before.On(n).slots
  {
  }

  lemma WalkedToFree(disk: Disk, before: Batch, disk': Disk, walked: Batch, name: ChainName, level: nat, slot: nat,
      key: Key, powers: seq<nat>, hash: Hash)
    requires WalkStep(disk, before, disk', walked, name, key, Open(level, slot), powers, hash)
    ensures BatchFits(disk, before, powers, hash) && BatchFits(disk', walked, powers, hash)
    ensures name in disk'.chains && disk'.capsules == disk.capsules
    ensures OnlyAt(VirtualDisk(disk, before).chains, VirtualDisk(disk', walked).chains, name)
    ensures Chosen(ChainAt(VirtualDisk(disk, before).chains, name), Virtual(disk'.chains[name], walked.On(name)),
              powers, key, level, slot)
  {
  }

  lemma PlacedSlots(before: Batch, walked: Batch, name: ChainName, level: nat, slot: nat, key: Key, item: Item,
      offset: int)
    requires Address(level, slot) !in walked.On(name).slots
    requires forall n :: walked.On(n).slots == before.On(n).slots
    ensures var batch := Placed(walked, name, level, slot, key, item, offset);
            SlotsFrom(before, batch, offset) && IsPending(batch, offset)
  {
    var batch := Placed(walked, name, level, slot, key, item, offset);
    forall n ensures batch.On(n).slots ==
        if n == name then before.On(n).slots[Address(level, slot) := Used(key, offset)] else before.On(n).slots
    {
    }
    assert Address(level, slot) in batch.On(name).slots;
  }

  lemma OpenIsPlaced(disk: Disk, before: Batch, disk': Disk, walked: Batch, name: ChainName, level: nat, slot: nat,
      item: Item, key: Key, powers: seq<nat>, hash: Hash)
    requires WalkStep(disk, before, disk', walked, name, key, Open(level, slot), powers, hash)
    requires forall n :: walked.On(n).slots == before.On(n).slots
    requires hash(item.id) == Some(key) && name == NameOf(item.id.Space(), key)
    ensures disk'.capsules == disk.capsules
    ensures PlacedAt(disk, before, Disk(disk'.chains, disk'.capsules + [Whole(item)]),
                     Placed(walked, name, level, slot, key, item, |disk'.capsules|), |disk.capsules|, item, key,
                       powers, hash)
  {
    hide *;
    WalkedToFree(disk, before, disk', walked, name, level, slot, key, powers, hash);
    BatchFitsLawful(disk, before, powers, hash);
    ChosenIsFree(ChainAt(VirtualDisk(disk, before).chains, name), Virtual(disk'.chains[name], walked.On(name)), powers,
      key, level, slot);
    FreePending(disk', walked, name, level, slot, key, powers, hash);
    PlacedSlots(before, walked, name, level, slot, key, item, |disk'.capsules|);
    PlacedParts(disk, before, disk', walked, level, slot, item, key, powers, hash);
  }

  lemma ChosenIsFree(before: Chain<int>, mid: Chain<int>, powers: seq<nat>, key: Key, level: nat, slot: nat)
    requires Chosen(before, mid, powers, key, level, slot)
    ensures Shaped(mid, powers) && level < |mid| && ProbeSlots(mid[level].slots, key, powers[level]) == Free(slot)
  {
  }

  lemma PlacedParts(disk: Disk, before: Batch, disk': Disk, walked: Batch, level: nat, slot: nat, item: Item,
      key: Key, powers: seq<nat>, hash: Hash)
    requires Lawful(VirtualDisk(disk, before), powers, hash) && BatchFits(disk', walked, powers, hash)
    requires disk'.capsules == disk.capsules
    requires hash(item.id) == Some(key) && NameOf(item.id.Space(), key) in disk'.chains
    requires var name := NameOf(item.id.Space(), key);
             && OnlyAt(VirtualDisk(disk, before).chains, VirtualDisk(disk', walked).chains, name)
             && Chosen(ChainAt(VirtualDisk(disk, before).chains, name), Virtual(disk'.chains[name], walked.On(name)),
                  powers, key, level, slot)
    requires var batch := Placed(walked, NameOf(item.id.Space(), key), level, slot, key, item, |disk'.capsules|);
             SlotsFrom(before, batch, |disk'.capsules|) && IsPending(batch, |disk'.capsules|)
    ensures PlacedAt(disk, before, Disk(disk'.chains, disk'.capsules + [Whole(item)]),
                     Placed(walked, NameOf(item.id.Space(), key), level, slot, key, item, |disk'.capsules|),
                       |disk.capsules|, item, key,
                     powers, hash)
  {
    hide BatchFits, Lawful, Chosen, Offset, OnlyAt, SlotsFrom, IsPending, Virtual;
    PlacedOffset(VirtualDisk(disk, before), disk', walked, level, slot, key, item, powers, hash);
  }

  /** The free slot a walk chose is not pending. */
  lemma FreePending(disk: Disk, batch: Batch, name: ChainName, level: nat, slot: nat, key: Key, powers: seq<nat>,
      hash: Hash)
    requires BatchFits(disk, batch, powers, hash) && name in disk.chains
    requires Shaped(Virtual(disk.chains[name], batch.On(name)), powers) && level < |disk.chains[name]|
    requires ProbeSlots(Virtual(disk.chains[name], batch.On(name))[level].slots, key, powers[level]) == Free(slot)
    ensures Address(level, slot) !in batch.On(name).slots
  {
    hide ProbeFrom, LawfulChain;
    assert ChainSession(disk.chains[name], batch.On(name), name, disk.capsules, powers, hash);
    FreeIsVacant(Virtual(disk.chains[name], batch.On(name))[level].slots, key, powers[level], slot);
  }

  lemma FreeIsVacant(slots: seq<Slot<int>>, key: Key, p: nat, slot: nat)
    requires Fits(slots, p) && ProbeSlots(slots, key, p) == Free(slot)
    ensures slot < |slots| && slots[slot].Vacant?
  {
  }

  lemma ExistingIsPlaced(disk: Disk, before: Batch, disk': Disk, walked: Batch, batch: Batch, name: ChainName,
      level: nat, slot: nat, offset: int, item: Item, key: Key, powers: seq<nat>, hash: Hash)
    requires forall n :: walked.On(n).slots == before.On(n).slots
    requires batch.touched == walked.touched && disk'.capsules == disk.capsules && 0 <= offset < |disk.capsules|
    requires BatchFits(disk', walked, powers, hash) && Lawful(VirtualDisk(disk', walked), powers, hash)
    requires Offset(VirtualDisk(disk', walked), powers, hash, item.id.Space(), key) == Some(offset)
    requires disk'.capsules[offset] == Whole(item)
    ensures PlacedAt(disk, before, disk', batch, offset, item, key, powers, hash)
  {
    hide BatchFits, Lawful, Offset, VirtualDisk;
    SameTouched(disk', walked, batch);
  }

  lemma SameTouched(disk: Disk, walked: Batch, batch: Batch)
    requires batch.touched == walked.touched
    ensures VirtualDisk(disk, batch) == VirtualDisk(disk, walked) && forall n :: batch.On(n) == walked.On(n)
  {
    hide Virtual;
  }

  /** The staged slots and level counts that landed are written, chain by chain. */
  method PublishChains(disk: Disk, batch: Batch, landed: set<(ChainName, Address)>, counted: set<(ChainName, nat)>)
    returns (disk': Disk)
    requires batch.touched.Keys <= disk.chains.Keys
    ensures disk' == PublishDisk(disk, batch, landed, counted)
  {
    var chains := disk.chains;
    var todo := batch.touched.Keys;
    while todo != {}
      invariant todo <= batch.touched.Keys
      invariant chains.Keys == disk.chains.Keys
      invariant forall name :: name in chains && name in batch.touched && name !in todo ==>
        chains[name] == Publish(disk.chains[name], batch.On(name), PartOf(landed, name), PartOf(counted, name))
      invariant forall name :: name in chains && !(name in batch.touched && name !in todo) ==>
                  chains[name] == disk.chains[name]
    {
      var name :| name in todo;
      chains := chains[name := Publish(chains[name], batch.On(name), PartOf(landed, name), PartOf(counted, name))];
      todo := todo - {name};
    }
    forall name | name in chains
      ensures chains[name] == Publish(disk.chains[name], batch.On(name), PartOf(landed, name), PartOf(counted, name))
    {
      if name !in batch.touched { PublishNothing(disk.chains[name], PartOf(landed, name), PartOf(counted, name)); }
    }
    disk' := Disk(chains, disk.capsules);
  }
}
