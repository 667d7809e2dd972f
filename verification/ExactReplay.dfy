/**
 The exact-address directory of `exact_replay.py`: batches of records and single sources put into the leveled
 directory, with rejections and crashes. Specification: a write-once map from key to record.
 */
module ExactReplay {
  import opened Directory
  import opened LevelWalk
  import opened LeveledTable
  import opened Placement
  import opened Wrappers

  datatype Record = Record(id: string, shard: string, row: int, sources: seq<string>)

  datatype Outcome = Stored | Rejected(error: Error) | Crashed

  /**
   The environment's choice for one batch: no crash; a crash before item `item` is staged, with `kept`
   of the batch's capsules surviving whole and perhaps a torn one; or a crash while the slots are being
   published, with any set of slots and any set of level counts having reached the disk.
   */
  datatype Fate =
    | Completes
    | CrashWhileStaging(item: nat, kept: nat, torn: bool)
    | CrashWhileCommitting(landed: set<(ChainName, Address)>, counted: set<(ChainName, nat)>)

  /** The first row of the batch with the same key as row `j`. */
  ghost function FirstRow(items: seq<Item>, j: nat, hash: Hash): (k: nat)
    requires j < |items|
    ensures k <= j && SeenKeyOf(items[k], hash) == SeenKeyOf(items[j], hash)
    ensures FirstOfKey(items, k, hash)
    decreases j
  {
    if FirstOfKey(items, j, hash) then j
    else var k :| 0 <= k < j && SeenKeyOf(items[k], hash) == SeenKeyOf(items[j], hash); FirstRow(items, k, hash)
  }

  /**
   When a stored row answers under its own identity: exactly when the first row of its key in the batch
   is for that same identity. (A second identity with the same key and the same binding is skipped in
   silence, and `get` then reports a mismatch for it.)
   */
  lemma StoredRowAnswersIff(before: Disk, after: Disk, items: seq<Item>, j: nat, powers: seq<nat>, hash: Hash)
    requires BatchStored(before, after, items, powers, hash) && j < |items|
    ensures Answered(after, powers, hash, items[j].id) == Bound(items[j].binding)
       <==> items[FirstRow(items, j, hash)].id == items[j].id
  {
    var k := FirstRow(items, j, hash);
    assert RowBound(after, items[j], powers, hash) && RowBound(after, items[k], powers, hash);
    var sk := SeenKeyOf(items[k], hash).value;
    assert Lookup(after, powers, hash, sk.space, sk.key) == Some(items[k]);
  }

  /** The claim without its condition is false: the second spelling of one address is lost in silence. */
  lemma SecondSpellingIsLost(before: Disk, after: Disk, powers: seq<nat>, hash: Hash)
    requires hash(AddressId("memory:AB")) == hash(AddressId("memory:ab"))
    requires BatchStored(before, after,
      [Item(AddressId("memory:AB"), Row("s", 0)), Item(AddressId("memory:ab"), Row("s", 0))], powers, hash)
    ensures Answered(after, powers, hash, AddressId("memory:AB")) == Bound(Row("s", 0))
    ensures Answered(after, powers, hash, AddressId("memory:ab")) == IdentityMismatch
  {
    var items := [Item(AddressId("memory:AB"), Row("s", 0)), Item(AddressId("memory:ab"), Row("s", 0))];
    assert FirstRow(items, 0, hash) == 0;
    assert "memory:AB"[7] != "memory:ab"[7];
    assert SeenKeyOf(items[0], hash) == SeenKeyOf(items[1], hash);
    assert !FirstOfKey(items, 1, hash);
    assert FirstRow(items, 1, hash) == 0;
    StoredRowAnswersIff(before, after, items, 0, powers, hash);
    StoredRowAnswersIff(before, after, items, 1, powers, hash);
    assert RowBound(after, items[1], powers, hash);
  }

  // ----- records -----

  function ExactItems(records: seq<Record>): (items: seq<Item>)
    ensures |items| == |records|
  {
    seq(|records|, i requires 0 <= i < |records| =>
      Item(AddressId(records[i].id), Row(records[i].shard, records[i].row)))
  }

  /** One route per record and source address, in record order. */
  function SourceItems(records: seq<Record>): seq<Item> {
    if records == [] then []
    else SourceItems(records[..|records| - 1]) + RoutesOf(records[|records| - 1])
  }

  function RoutesOf(record: Record): (items: seq<Item>)
    ensures |items| == |record.sources|
  {
    seq(|record.sources|,
      i requires 0 <= i < |record.sources| => Item(SourceId(record.sources[i]), Lineage(record.shard)))
  }

  function AllItems(records: seq<Record>): seq<Item> { ExactItems(records) + SourceItems(records) }

  lemma {:induction false} SourceItemsConcat(a: seq<Record>, b: seq<Record>)
    ensures SourceItems(a + b) == SourceItems(a) + SourceItems(b)
  {
    hide RoutesOf;
    if b == [] {
      assert a + b == a;
    } else {
      var init, last := b[..|b| - 1], b[|b| - 1];
      SourceItemsConcat(a, init);
      SourceItemsLast(a + b);
      SourceItemsLast(b);
      hide SourceItems;
      assert (a + b)[..|a + b| - 1] == a + init;
      assert SourceItems(a) + SourceItems(init) + RoutesOf(last)
             == SourceItems(a) + (SourceItems(init) + RoutesOf(last));
    }
  }

  lemma SourceItemsLast(records: seq<Record>)
    requires records != []
    ensures SourceItems(records) == SourceItems(records[..|records| - 1]) + RoutesOf(records[|records| - 1])
  {
  }

  ghost predicate AllBound(disk: Disk, items: seq<Item>, powers: seq<nat>, hash: Hash)
    requires Lawful(disk, powers, hash)
  {
    forall item :: item in items ==> RowBound(disk, item, powers, hash)
  }

  /** What a finished `put_many` promises about the records it was given. */
  ghost predicate RecordsStored(before: Disk, after: Disk, items: seq<Item>, powers: seq<nat>, hash: Hash) {
    && Lawful(before, powers, hash) && Lawful(after, powers, hash) && Grows(before, after)
    && AllBound(after, items, powers, hash)
    && (CleanDisk(before, powers) ==> CleanDisk(after, powers) && OnlyItemsMoved(before, after, items, powers, hash))
  }

  lemma MoreItemsMoved(before: Disk, after: Disk, items: seq<Item>, more: seq<Item>, powers: seq<nat>, hash: Hash)
    requires Lawful(before, powers, hash) && Lawful(after, powers, hash)
    requires OnlyItemsMoved(before, after, items, powers, hash)
    requires forall item :: item in items ==> item in more
    ensures OnlyItemsMoved(before, after, more, powers, hash)
  {
    forall s, key: Key | forall j :: 0 <= j < |more| ==> SeenKeyOf(more[j], hash) != Some(SeenKey(s, key))
      ensures Lookup(after, powers, hash, s, key) == Lookup(before, powers, hash, s, key)
    {
      forall j | 0 <= j < |items| ensures SeenKeyOf(items[j], hash) != Some(SeenKey(s, key)) {
        assert items[j] in more;
      }
    }
  }

  lemma BoundIsStable(before: Disk, after: Disk, items: seq<Item>, powers: seq<nat>, hash: Hash)
    requires Lawful(before, powers, hash) && Lawful(after, powers, hash) && Grows(before, after)
    requires AllBound(before, items, powers, hash)
    ensures AllBound(after, items, powers, hash)
  {
    forall item | item in items ensures RowBound(after, item, powers, hash) {
      assert RowBound(before, item, powers, hash);
      LookupIsStable(before, after, powers, hash, item.id.Space(), hash(item.id).value);
    }
  }

  /** One more chunk stored after the ones before it. */
  lemma ChunksCompose(start: Disk, mid: Disk, after: Disk, done: seq<Item>, rows: seq<Item>, chunk: seq<Item>,
      all: seq<Item>, powers: seq<nat>, hash: Hash)
    requires RecordsStored(start, mid, done, powers, hash) && BatchStored(mid, after, rows, powers, hash)
    requires forall item :: item in rows <==> item in chunk
    requires all == done + chunk || forall item :: item in all <==> item in done || item in chunk
    ensures RecordsStored(start, after, all, powers, hash)
  {
    hide Lawful, Grows, CleanDisk;
    GrowsTransitive(start, mid, after);
    BoundIsStable(mid, after, done, powers, hash);
    forall item | item in all ensures RowBound(after, item, powers, hash) {
      if item in chunk {
        var j :| 0 <= j < |rows| && rows[j] == item;
        assert RowBound(after, rows[j], powers, hash);
      }
    }
    if CleanDisk(start, powers) {
      MoreItemsMoved(start, mid, done, all, powers, hash);
      MoreItemsMoved(mid, after, rows, all, powers, hash);
    }
  }

  // ----- whole runs -----

  /** A chunk or a source that was stored, or a put that was rejected. */
  datatype Put = Accepted(items: seq<Item>) | Declined

  ghost predicate IsRun(disks: seq<Disk>, puts: seq<Put>, powers: seq<nat>, hash: Hash) {
    && |disks| == |puts| + 1 && disks[0] == Disk(map[], [])
    && forall k :: 0 <= k < |puts| ==>
         match puts[k]
         case Accepted(items) => BatchStored(disks[k], disks[k + 1], items, powers, hash)
         case Declined => NothingStored(disks[k], disks[k + 1], powers, hash)
  }

  function FirstItem(items: seq<Item>, sk: SeenKey, hash: Hash): Option<Item> {
    if items == [] then None
    else
      var before := FirstItem(items[..|items| - 1], sk, hash);
      if before.Some? then before
      else if SeenKeyOf(items[|items| - 1], hash) == Some(sk) then Some(items[|items| - 1]) else None
  }

  /** A write-once map, put by put: the first item of the run with the key. */
  function WrittenOnce(puts: seq<Put>, sk: SeenKey, hash: Hash): Option<Item> {
    if puts == [] then None
    else
      var before := WrittenOnce(puts[..|puts| - 1], sk, hash);
      if before.Some? then before
      else match puts[|puts| - 1] case Declined => None case Accepted(items) => FirstItem(items, sk, hash)
  }

  lemma {:induction false} FirstItemIsFirst(items: seq<Item>, sk: SeenKey, hash: Hash) returns (j: nat)
    ensures FirstItem(items, sk, hash) == None ==>
              forall k :: 0 <= k < |items| ==> SeenKeyOf(items[k], hash) != Some(sk)
    ensures FirstItem(items, sk, hash).Some? ==>
              && j < |items| && SeenKeyOf(items[j], hash) == Some(sk) && FirstOfKey(items, j, hash)
              && FirstItem(items, sk, hash).value == items[j]
  {
    j := 0;
    if items != [] {
      var init := items[..|items| - 1];
      j := FirstItemIsFirst(init, sk, hash);
      if FirstItem(init, sk, hash) == None && SeenKeyOf(items[|items| - 1], hash) == Some(sk) {
        j := |items| - 1;
        forall k | 0 <= k < j ensures SeenKeyOf(items[k], hash) != Some(sk) { assert init[k] == items[k]; }
      } else if FirstItem(init, sk, hash) == None {
        forall k | 0 <= k < |items| ensures SeenKeyOf(items[k], hash) != Some(sk) {
          assert k < |init| ==> init[k] == items[k];
        }
      } else {
        forall k | 0 <= k < j ensures SeenKeyOf(items[k], hash) != SeenKeyOf(items[j], hash) {
          assert init[k] == items[k];
        }
      }
    }
  }

  lemma EmptyDisk(powers: seq<nat>, hash: Hash)
    ensures Lawful(Disk(map[], []), powers, hash) && CleanDisk(Disk(map[], []), powers)
    ensures forall space, key: Key :: Lookup(Disk(map[], []), powers, hash, space, key) == None
  {
  }

  lemma AcceptedWrites(before: Disk, after: Disk, items: seq<Item>, powers: seq<nat>, hash: Hash, space: Namespace,
      key: Key)
    requires BatchStored(before, after, items, powers, hash) && CleanDisk(before, powers)
    ensures Lookup(after, powers, hash, space, key) ==
              var was := Lookup(before, powers, hash, space, key);
              if was.Some? then was else FirstItem(items, SeenKey(space, key), hash)
  {
    hide Lawful, CleanDisk, Grows, Lookup, SeenKeyOf, FirstOfKey, FirstItem;
    if Lookup(before, powers, hash, space, key).Some? {
      LookupIsStable(before, after, powers, hash, space, key);
    } else {
      var j := FirstItemIsFirst(items, SeenKey(space, key), hash);
    }
  }

  /** Without crashes, the directory is a write-once map: what was put first under a key, and nothing else. */
  lemma {:induction false} RunIsWriteOnce(disks: seq<Disk>, puts: seq<Put>, n: nat, powers: seq<nat>, hash: Hash,
      space: Namespace, key: Key)
    requires IsRun(disks, puts, powers, hash) && n <= |puts|
    ensures Lawful(disks[n], powers, hash) && CleanDisk(disks[n], powers)
    ensures Lookup(disks[n], powers, hash, space, key) == WrittenOnce(puts[..n], SeenKey(space, key), hash)
  {
    if n == 0 {
      EmptyDisk(powers, hash);
    } else {
      RunIsWriteOnce(disks, puts, n - 1, powers, hash, space, key);
      assert puts[..n][..n - 1] == puts[..n - 1] && puts[..n][n - 1] == puts[n - 1];
      hide Lawful, CleanDisk, Lookup, Grows, SealsOnly;
      match puts[n - 1]
      case Accepted(items) => AcceptedWrites(disks[n - 1], disks[n], items, powers, hash, space, key);
      case Declined => SealsOnlyKeepsLookups(disks[n - 1], disks[n], powers, hash, space, key);
    }
  }

  /** A source that `put_source` added is a stored batch of one. */
  lemma SourceIsAccepted(before: Disk, after: Disk, item: Item, key: Key, powers: seq<nat>, hash: Hash)
    requires Lawful(before, powers, hash) && Lawful(after, powers, hash) && Grows(before, after)
             && hash(item.id) == Some(key)
    requires Answered(after, powers, hash, item.id) == Bound(item.binding)
    requires CleanDisk(after, powers) && OthersKept(before, after, key, item.id.Space(), powers, hash)
    ensures BatchStored(before, after, [item], powers, hash)
  {
    hide Lawful, CleanDisk, Grows, Lookup;
    assert Lookup(after, powers, hash, item.id.Space(), key) == Some(item);
    forall s, other: Key | forall j :: 0 <= j < 1 ==> SeenKeyOf([item][j], hash) != Some(SeenKey(s, other))
      ensures Lookup(after, powers, hash, s, other) == Lookup(before, powers, hash, s, other)
    {
      assert SeenKeyOf([item][0], hash) == Some(SeenKey(item.id.Space(), key));
    }
  }

  /** Any mixture of puts, rejected puts and crashes; `given[k]` is what the caller of put `k` handed over. */
  ghost predicate IsCrashingRun(disks: seq<Disk>, given: seq<seq<Item>>, powers: seq<nat>, hash: Hash) {
    && |disks| == |given| + 1 && disks[0] == Disk(map[], [])
    && (forall k :: 0 <= k < |disks| ==> Lawful(disks[k], powers, hash))
    && forall k :: 0 <= k < |given| ==>
         Grows(disks[k], disks[k + 1]) && CapsulesFrom(disks[k].capsules, disks[k + 1].capsules, given[k])
  }

  lemma {:induction false} RunGrows(disks: seq<Disk>, given: seq<seq<Item>>, i: nat, k: nat, powers: seq<nat>,
      hash: Hash)
    requires IsCrashingRun(disks, given, powers, hash) && i <= k < |disks|
    ensures Grows(disks[i], disks[k])
    decreases k - i
  {
    hide Grows, Lawful;
    if i == k { NothingChanged(disks[i]); } else {
      RunGrows(disks, given, i, k - 1, powers, hash);
      assert Grows(disks[k - 1], disks[k - 1 + 1]);
      GrowsTransitive(disks[i], disks[k - 1], disks[k]);
    }
  }

  /** At no later point of any run does an identifier once visible change its assignment. */
  lemma AnswersForGood(disks: seq<Disk>, given: seq<seq<Item>>, i: nat, k: nat, powers: seq<nat>, hash: Hash,
      id: Identity)
    requires IsCrashingRun(disks, given, powers, hash) && i <= k < |disks|
    requires Answered(disks[i], powers, hash, id) != Absent
    ensures Answered(disks[k], powers, hash, id) == Answered(disks[i], powers, hash, id)
  {
    RunGrows(disks, given, i, k, powers, hash);
    hide Grows, Lawful, Answered;
    AnswersAreStable(disks[i], disks[k], powers, hash, id);
  }

  lemma {:induction false} CapsulesWereGiven(disks: seq<Disk>, given: seq<seq<Item>>, n: nat, item: Item,
      powers: seq<nat>, hash: Hash)
      returns (k: nat)
    requires IsCrashingRun(disks, given, powers, hash) && n < |disks| && Whole(item) in disks[n].capsules
    ensures k < n && item in given[k]
  {
    hide Grows, Lawful;
    var c :| 0 <= c < |disks[n].capsules| && disks[n].capsules[c] == Whole(item);
    if n == 0 {
      assert false;
    } else {
      assert CapsulesFrom(disks[n - 1].capsules, disks[n - 1 + 1].capsules, given[n - 1]);
      if c < |disks[n - 1].capsules| {
        assert disks[n - 1].capsules[c] == Whole(item);
        k := CapsulesWereGiven(disks, given, n - 1, item, powers, hash);
      } else {
        k := n - 1;
      }
    }
  }

  /** An identifier is absent or bound as one of its puts said, interrupted or not. */
  lemma AnswersWereGiven(disks: seq<Disk>, given: seq<seq<Item>>, n: nat, id: Identity, binding: Binding,
      powers: seq<nat>, hash: Hash)
      returns (k: nat)
    requires IsCrashingRun(disks, given, powers, hash) && n < |disks|
    requires Answered(disks[n], powers, hash, id) == Bound(binding)
    ensures k < n && Item(id, binding) in given[k]
  {
    LookupIsCapsule(disks[n], powers, hash, id.Space(), hash(id).value);
    k := CapsulesWereGiven(disks, given, n, Item(id, binding), powers, hash);
  }

  lemma LookupIsCapsule(disk: Disk, powers: seq<nat>, hash: Hash, space: Namespace, key: Key)
    requires Lawful(disk, powers, hash)
    ensures var item := Lookup(disk, powers, hash, space, key); item.Some? ==> Whole(item.value) in disk.capsules
  {
    hide ProbeSlots;
    var name := NameOf(space, key);
    var chain := ChainAt(disk.chains, name);
    match Seek(chain, powers, key, 0)
    case Nowhere =>
    case At(level, slot) =>
      assert AllPointRight(chain[level].slots, name, disk.capsules, hash);
      assert PointsRight(chain[level].slots[slot], name, disk.capsules, hash);
  }

  lemma EmptyRun(powers: seq<nat>, hash: Hash)
    ensures IsCrashingRun([Disk(map[], [])], [], powers, hash)
  {
  }

  lemma RunIsLawful(disks: seq<Disk>, given: seq<seq<Item>>, powers: seq<nat>, hash: Hash)
    requires IsCrashingRun(disks, given, powers, hash)
    ensures forall k :: 0 <= k < |disks| ==> Lawful(disks[k], powers, hash)
  {
  }

  /** One call of a client, with the environment's choice for it. */
  datatype Call = Many(records: seq<Record>, fates: nat -> Fate)
      | Single(source: string, shard: string, fate: SourceFate)

  /** What a call hands over. */
  function GivenBy(call: Call): seq<Item> {
    match call
    case Many(records, _) => AllItems(records)
    case Single(source, shard, _) => [Item(SourceId(source), Lineage(shard))]
  }

  lemma CrashingRunStep(disks: seq<Disk>, given: seq<seq<Item>>, after: Disk, items: seq<Item>, powers: seq<nat>,
      hash: Hash)
    requires IsCrashingRun(disks, given, powers, hash) && Lawful(after, powers, hash)
    requires Grows(disks[|given|], after) && CapsulesFrom(disks[|given|].capsules, after.capsules, items)
    ensures IsCrashingRun(disks + [after], given + [items], powers, hash)
  {
    hide Lawful, Grows, CapsulesFrom;
    var more := disks + [after];
    forall j | 0 <= j < |given| + 1
      ensures Grows(more[j], more[j + 1]) && CapsulesFrom(more[j].capsules, more[j + 1].capsules, (given + [items])[j])
    {
      if j < |given| { assert Grows(disks[j], disks[j + 1]) && more[j] == disks[j] && more[j + 1] == disks[j + 1]; }
    }
  }

  /** No identity is given two different bindings. */
  ghost predicate Consistent(items: seq<Item>) {
    forall i, j :: 0 <= i < |items| && 0 <= j < |items| && items[i].id == items[j].id ==>
        items[i].binding == items[j].binding
  }

  /** The `setdefault` pass over a batch: the first row that gives its identity another binding. */
  method FirstConflict(items: seq<Item>) returns (conflict: Option<nat>)
    ensures conflict.None? <==> Consistent(items)
    ensures conflict.Some? ==> conflict.value < |items|
    ensures conflict.Some? ==> Consistent(items[..conflict.value]) && !Consistent(items[..conflict.value + 1])
  {
    var known: map<Identity, Binding> := map[];
    var i := 0;
    while i < |items|
      invariant 0 <= i <= |items|
      invariant forall k :: 0 <= k < i ==> items[k].id in known && known[items[k].id] == items[k].binding
      invariant forall id :: id in known ==> exists k :: 0 <= k < i && items[k] == Item(id, known[id])
    {
      var item := items[i];
      if item.id in known && known[item.id] != item.binding {
        var k :| 0 <= k < i && items[k] == Item(item.id, known[item.id]);
        assert items[..i + 1][k] == items[k] && items[..i + 1][i] == item;
        return Some(i);
      }
      ghost var was := known;
      known := known[item.id := item.binding];
      i := i + 1;
      forall id | id in known ensures exists k :: 0 <= k < i && items[k] == Item(id, known[id]) {
        if id == item.id {
          assert items[i - 1] == Item(id, known[id]);
        } else {
          var k :| 0 <= k < i - 1 && items[k] == Item(id, was[id]);
        }
      }
    }
    conflict := None;
  }

  /** Each row once, in first-seen order. */
  function Once(items: seq<Item>): seq<Item> {
    if items == [] then []
    else
      var once := Once(items[..|items| - 1]);
      if items[|items| - 1] in once then once else once + [items[|items| - 1]]
  }

  lemma {:induction false} OnceHasAll(items: seq<Item>)
    ensures forall item :: item in Once(items) <==> item in items
    ensures forall i, j :: 0 <= i < j < |Once(items)| ==> Once(items)[i] != Once(items)[j]
  {
    if items != [] {
      OnceHasAll(items[..|items| - 1]);
      assert items == items[..|items| - 1] + [items[|items| - 1]];
    }
  }

  /** The `dict` of rows. */
  method DistinctRows(items: seq<Item>) returns (rows: seq<Item>)
    ensures rows == Once(items)
    ensures forall item :: item in rows <==> item in items
    ensures forall i, j :: 0 <= i < j < |rows| ==> rows[i] != rows[j]
  {
    rows := [];
    var i := 0;
    while i < |items|
      invariant 0 <= i <= |items| && rows == Once(items[..i])
    {
      assert items[..i + 1][..i] == items[..i];
      if items[i] !in rows { rows := rows + [items[i]]; }
      i := i + 1;
    }
    assert items[..i] == items;
    OnceHasAll(items);
  }

  /** The rows of one chunk: its addresses, then each of its source routes once. */
  function RowsOf(records: seq<Record>): seq<Item> { ExactItems(records) + Once(SourceItems(records)) }

  lemma RowsHaveAll(records: seq<Record>)
    ensures forall item :: item in RowsOf(records) <==> item in AllItems(records)
  {
    OnceHasAll(SourceItems(records));
  }

  /** The chunks of at most `limit` records that a call is cut into. */
  function Batches(records: seq<Record>, limit: nat): seq<seq<Item>>
    requires limit >= 1
    decreases |records|
  {
    if records == [] then []
    else
      var size := if limit <= |records| then limit else |records|;
      [RowsOf(records[..size])] + Batches(records[size..], limit)
  }

  /** Chunk by chunk, together the rows of all records. */
  lemma {:induction false} BatchesHaveAll(records: seq<Record>, limit: nat)
    requires limit >= 1
    ensures Within(Batches(records, limit), AllItems(records))
    ensures forall item :: item in AllItems(records) ==>
              exists k :: 0 <= k < |Batches(records, limit)| && item in Batches(records, limit)[k]
    decreases |records|
  {
    hide RowsOf, AllItems;
    var batches := Batches(records, limit);
    if records == [] {
      NoItems();
    } else {
      var size := if limit <= |records| then limit else |records|;
      var rest := Batches(records[size..], limit);
      BatchesHaveAll(records[size..], limit);
      RowsHaveAll(records[..size]);
      ChunkItems(records, size, |records|);
      assert records[..|records|] == records && records[size..|records|] == records[size..];
      assert batches[0] == RowsOf(records[..size]) && forall k :: 1 <= k < |batches| ==> batches[k] == rest[k - 1];
      forall k, item | 0 <= k < |batches| && item in batches[k] ensures item in AllItems(records) {
        if k > 0 { assert item in rest[k - 1]; }
      }
      forall item | item in AllItems(records) ensures exists k :: 0 <= k < |batches| && item in batches[k] {
        if item in AllItems(records[..size]) {
          assert item in batches[0];
        } else {
          var k :| 0 <= k < |rest| && item in rest[k];
          assert item in batches[k + 1];
        }
      }
    }
  }

  lemma NoItems()
    ensures AllItems([]) == []
  {
  }

  /** Record by record: its address, then its source routes; the order `put_many` checks them in. */
  function CheckOrder(records: seq<Record>): seq<Item> {
    if records == [] then []
    else
      var last := records[|records| - 1];
      CheckOrder(records[..|records| - 1]) + [Item(AddressId(last.id), Row(last.shard, last.row))] + RoutesOf(last)
  }

  lemma RejectedAtOnce(disk: Disk, powers: seq<nat>, hash: Hash)
    requires Lawful(disk, powers, hash)
    ensures NothingStored(disk, disk, powers, hash)
  {
    NothingChanged(disk);
  }

  lemma StoredNothingYet(disk: Disk, powers: seq<nat>, hash: Hash)
    requires Lawful(disk, powers, hash)
    ensures RecordsStored(disk, disk, AllItems([]), powers, hash)
  {
    NothingChanged(disk);
  }

  lemma ExactItemsConcat(a: seq<Record>, b: seq<Record>)
    ensures ExactItems(a + b) == ExactItems(a) + ExactItems(b)
  {
  }

  lemma AllItemsConcat(a: seq<Record>, b: seq<Record>)
    ensures forall item :: item in AllItems(a + b) <==> item in AllItems(a) || item in AllItems(b)
  {
    hide ExactItems, SourceItems;
    ExactItemsConcat(a, b);
    SourceItemsConcat(a, b);
  }

  lemma ChunkItems(records: seq<Record>, at: nat, next: nat)
    requires at <= next <= |records|
    ensures forall item :: item in AllItems(records[..next]) <==>
              item in AllItems(records[..at]) || item in AllItems(records[at..next])
    ensures forall item :: item in AllItems(records[at..next]) ==> item in AllItems(records)
  {
    hide AllItems;
    assert records[..next] == records[..at] + records[at..next] && records == records[..next] + records[next..];
    AllItemsConcat(records[..at], records[at..next]);
    AllItemsConcat(records[..next], records[next..]);
  }

  /** However a chunk ended, earlier answers stand and new capsules are the caller's. */
  lemma AfterChunk(start: Disk, before: Disk, after: Disk, rows: seq<Item>, chunk: seq<Item>, all: seq<Item>,
      outcome: Outcome, powers: seq<nat>, hash: Hash)
    requires Grows(start, before) && CapsulesFrom(start.capsules, before.capsules, all)
    requires CapsulesFrom(before.capsules, after.capsules, rows)
    requires forall item :: item in rows ==> item in chunk
    requires forall item :: item in chunk ==> item in all
    requires match outcome
             case Stored => BatchStored(before, after, rows, powers, hash)
             case Rejected(_) => NothingStored(before, after, powers, hash)
             case Crashed => Grows(before, after)
    ensures Grows(start, after) && CapsulesFrom(start.capsules, after.capsules, all)
  {
    if outcome.Rejected? { SealsOnlyGrows(before, after); }
    GrowsTransitive(start, before, after);
    forall c | |start.capsules| <= c < |after.capsules|
      ensures after.capsules[c].Torn? || after.capsules[c].item in all
    {
      if c < |before.capsules| { assert after.capsules[c] == before.capsules[c]; }
    }
  }

  // ----- put_source: one key, no batch -----

  /** The level walk of `put_source`, on what is stored; it counts the key only after publishing it. */
  method SelectStored(chain: Chain<int>, key: Key, ghost name: ChainName, ghost capsules: seq<Capsule>,
      powers: seq<nat>, ghost hash: Hash) returns (chain': Chain<int>, selection: Selection)
    requires LawfulChain(chain, name, capsules, powers, hash) && Usable(powers)
    ensures LawfulChain(chain', name, capsules, powers, hash) && Resealed(chain, chain')
    ensures SelectionFits(chain, chain', key, selection, powers)
    ensures IsRoute(chain, chain', powers, key, selection)
    ensures selection.NoRoom? <==> NoPlace(chain, powers, key, 0)
    ensures selection.Open? ==> !chain'[selection.level].sealed
    ensures Clean(chain, powers) ==> Clean(chain', powers)
  {
    hide Walk, NoPlace, StepsTo, IsRoute, AllPointRight, ProbeFrom, Clean, HoldsKeys, LawfulStates, Resealed, Passes,
         Routed, Pow2, Occupied, VirtualSlots;
    NoRoomIff(chain, powers, key, 0);
    SelfResealed(chain);
    chain' := chain;
    var i := 0;
    while i < |powers|
      invariant 0 <= i <= |powers| && i <= |chain'|
      invariant LawfulChain(chain', name, capsules, powers, hash) && Resealed(chain, chain')
      invariant Walked(chain', powers, key, i)
      invariant Walk(chain, powers, key, 0) == Walk(chain', powers, key, i)
      invariant Clean(chain, powers) ==> Clean(chain', powers)
    {
      ghost var before := chain';
      if i == |chain'| { chain' := FreshLevel(chain', i, name, capsules, powers, hash); } else { SelfResealed(chain'); }
      ghost var now := chain';
      WalkedStays(before, chain', powers, key, i);
      ResealedTransitive(chain, before, chain');
      var probe := ProbePending(chain'[i].slots, key, powers[i], i, map[]);
      NothingPending(chain'[i].slots, i);
      if probe.Found? {
        WalkedSkips(chain', powers, key, i);
        EndsAt(chain, before, now, powers, key, i, probe);
        return chain', Existing(i, probe.slot);
      }
      if probe.Free? && !chain'[i].sealed {
        EndsAt(chain, before, now, powers, key, i, probe);
        ChosenStored(chain, chain', powers, key, i, probe.slot, name, capsules, hash);
        return chain', Open(i, probe.slot);
      }
      if probe.Full? { chain' := SealFull(chain, chain', key, i, name, capsules, powers, hash); }
      VisitSteps(before, now, chain', powers, key, i, probe, false);
      StepGoesOn(before, chain', powers, key, i, probe);
      WalkedFurther(chain', powers, key, i);
      i := i + 1;
    }
    selection := NoRoom;
    WalkEnds(chain, chain', powers, key);
  }

  /** The walk of a put that has not counted its key yet. */
  ghost predicate IsRoute(chain: Chain<int>, walked: Chain<int>, powers: seq<nat>, key: Key, selection: Selection) {
    && Shaped(chain, powers) && Usable(powers) && (selection.Open? ==> selection.level < |walked| <= |powers|)
    && Walk(chain, powers, key, 0) ==
         Route(if selection.Open? then Counted(walked, selection.level, true, powers) else walked, selection)
  }

  lemma WalkEnds(chain: Chain<int>, walked: Chain<int>, powers: seq<nat>, key: Key)
    requires Shaped(chain, powers) && Shaped(walked, powers) && Usable(powers) && |walked| == |powers|
    requires Walk(chain, powers, key, 0) == Walk(walked, powers, key, |powers|)
    ensures IsRoute(chain, walked, powers, key, NoRoom) && Walk(chain, powers, key, 0).selection.NoRoom?
  {
  }

  lemma StepGoesOn(before: Chain<int>, after: Chain<int>, powers: seq<nat>, key: Key, i: nat, probe: Probe)
    requires StepsTo(before, after, powers, key, i, probe, false) && !probe.Found?
    ensures Walk(before, powers, key, i) == Walk(after, powers, key, i + 1)
  {
    hide Walk;
  }

  lemma EndsAt(chain: Chain<int>, before: Chain<int>, now: Chain<int>, powers: seq<nat>, key: Key, i: nat, probe: Probe)
    requires Shaped(chain, powers) && Shaped(before, powers) && Usable(powers) && i <= |before| && i < |powers|
    requires Walk(chain, powers, key, 0) == Walk(before, powers, key, i)
    requires now == WithLevel(before, powers, i) && probe == ProbeSlots(now[i].slots, key, powers[i])
    requires probe.Found? || (probe.Free? && !now[i].sealed)
    ensures IsRoute(chain, now, powers, key, if probe.Found? then Existing(i, probe.slot) else Open(i, probe.slot))
    ensures !Walk(chain, powers, key, 0).selection.NoRoom?
  {
    hide Walk, ProbeSlots, WithLevel, Pow2, Threshold;
    var after := if probe.Found? then now else Counted(now, i, true, powers);
    VisitSteps(before, now, after, powers, key, i, probe, probe.Free?);
  }

  lemma ChosenStored(chain: Chain<int>, walked: Chain<int>, powers: seq<nat>, key: Key, i: nat, slot: nat,
      name: ChainName, capsules: seq<Capsule>, hash: Hash)
    requires LawfulChain(chain, name, capsules, powers, hash) && LawfulChain(walked, name, capsules, powers, hash)
    requires Resealed(chain, walked) && Walked(walked, powers, key, i) && i < |walked| && !walked[i].sealed
    requires ProbeSlots(walked[i].slots, key, powers[i]) == Free(slot)
    ensures SelectionFits(chain, walked, key, Open(i, slot), powers)
  {
    hide HoldsKeys, ProbeFrom, AllPointRight;
  }

  method FreshLevel(chain: Chain<int>, i: nat, ghost name: ChainName, ghost capsules: seq<Capsule>,
      powers: seq<nat>, ghost hash: Hash) returns (chain': Chain<int>)
    requires LawfulChain(chain, name, capsules, powers, hash)
    requires i == |chain| && i < |powers| && powers[i] >= 1
    ensures LawfulChain(chain', name, capsules, powers, hash) && Resealed(chain, chain')
    ensures chain' == WithLevel(chain, powers, i) && |chain'| == i + 1
    ensures Clean(chain, powers) ==> Clean(chain', powers)
  {
    chain' := chain + [Fresh(powers[i])];
    FreshLevelIsLawful(chain, chain', name, capsules, powers, hash);
    if Clean(chain, powers) {
      assert Occupied(Fresh<int>(powers[i]).slots) == {};
      ResealedStaysClean(chain, chain', powers);
    }
  }

  method SealFull(ghost start: Chain<int>, chain: Chain<int>, key: Key, i: nat, ghost name: ChainName,
      ghost capsules: seq<Capsule>, powers: seq<nat>, ghost hash: Hash) returns (chain': Chain<int>)
    requires LawfulChain(chain, name, capsules, powers, hash) && Resealed(start, chain)
    requires i < |chain| && ProbeSlots(chain[i].slots, key, powers[i]).Full? && Walked(chain, powers, key, i)
    ensures LawfulChain(chain', name, capsules, powers, hash) && Resealed(start, chain')
    ensures chain' == WithState(chain, i, Pow2(powers[i]), true) && Walked(chain', powers, key, i)
    ensures Clean(start, powers) && Clean(chain, powers) ==> Clean(chain', powers)
  {
    if Clean(chain, powers) { CleanNeverFull(chain, powers, key, i); }
    chain' := WithState(chain, i, Pow2(powers[i]), true);
    StateIsLawful(chain, i, Pow2(powers[i]), true, name, capsules, powers, hash);
    ResealedTransitive(start, chain, chain');
    WalkedStays(chain, chain', powers, key, i);
  }

  /** The walked chain, with the key already counted in its level when `counted`. */
  function Counted(mid: Chain<int>, level: nat, counted: bool, powers: seq<nat>): Chain<int>
    requires level < |mid| && level < |powers|
  {
    var count := mid[level].count + 1;
    if counted then WithState(mid, level, count, count >= Threshold(powers[level])) else mid
  }

  /** `put_source` on disk: the capsule, the slot and, when the crash let it through, the level's state. */
  ghost predicate SourcePut(before: Disk, after: Disk, mid: Chain<int>, level: nat, slot: nat, key: Key, item: Item,
      counted: bool, powers: seq<nat>, hash: Hash) {
    var name := NameOf(item.id.Space(), key);
    && hash(item.id) == Some(key)
    && SelectionFits(ChainAt(before.chains, name), mid, key, Open(level, slot), powers)
    && LawfulChain(mid, name, before.capsules, powers, hash) && !mid[level].sealed
    && OnlyAt(before.chains, after.chains, name) && after.capsules == before.capsules + [Whole(item)]
    && after.chains[name] == WithSlot(Counted(mid, level, counted, powers), level, slot, Used(key, |before.capsules|))
  }

  lemma SourcePutInserts(before: Disk, after: Disk, mid: Chain<int>, level: nat, slot: nat, key: Key, item: Item,
      counted: bool, powers: seq<nat>, hash: Hash)
    requires SourcePut(before, after, mid, level, slot, key, item, counted, powers, hash)
    ensures InsertedAt(before, after, Counted(mid, level, counted, powers), level, slot, key, item, powers, hash)
    ensures counted && Clean(mid, powers) ==>
              var chosen := Counted(mid, level, counted, powers);
              WithinLoad(chosen, powers) && |Occupied(chosen[level].slots)| < chosen[level].count
  {
    hide AllPointRight, Reachable, ProbeSlots, Routed;
    var name := NameOf(item.id.Space(), key);
    var count := mid[level].count + 1;
    ThresholdLeavesRoom(powers[level]);
    StateIsLawful(mid, level, count, count >= Threshold(powers[level]), name, before.capsules, powers, hash);
    ResealedTransitive(ChainAt(before.chains, name), mid, Counted(mid, level, counted, powers));
    StateKeepsChosen(ChainAt(before.chains, name), mid, level, count, count >= Threshold(powers[level]), key, slot,
      powers);
  }

  lemma SourceInserted(before: Disk, after: Disk, mid: Chain<int>, level: nat, slot: nat, key: Key, item: Item,
      counted: bool, powers: seq<nat>, hash: Hash)
    requires Lawful(before, powers, hash)
    requires SourcePut(before, after, mid, level, slot, key, item, counted, powers, hash)
    ensures Lawful(after, powers, hash) && Grows(before, after)
    ensures Lookup(after, powers, hash, item.id.Space(), key) == Some(item)
    ensures counted && CleanDisk(before, powers) && Clean(mid, powers) ==>
              CleanDisk(after, powers) && OthersKept(before, after, key, item.id.Space(), powers, hash)
  {
    var chosen := Counted(mid, level, counted, powers);
    hide SourcePut, Lawful, InsertedAt, Grows, WithinLoad, Clean;
    SourcePutInserts(before, after, mid, level, slot, key, item, counted, powers, hash);
    InsertBinds(before, after, chosen, level, slot, key, item, powers, hash);
    if counted && CleanDisk(before, powers) && Clean(mid, powers) {
      InsertKeepsClean(before, after, chosen, level, slot, key, item, powers, hash);
      forall s, other: Key | (s, other) != (item.id.Space(), key)
        ensures Lookup(after, powers, hash, s, other) == Lookup(before, powers, hash, s, other)
      {
        InsertBindsOnly(before, after, chosen, level, slot, key, item, powers, hash, s, other);
      }
    }
  }

  lemma StateKeepsChosen(before: Chain<int>, mid: Chain<int>, level: nat, count: nat, sealed: bool, key: Key, slot: nat,
      powers: seq<nat>)
    requires Chosen(before, mid, powers, key, level, slot) && (mid[level].sealed ==> sealed)
    ensures Chosen(before, WithState(mid, level, count, sealed), powers, key, level, slot)
  {
    var after := WithState(mid, level, count, sealed);
    forall i | 0 < i < |after| && (after[i].sealed || HoldsKeys(after[i])) ensures after[i - 1].sealed {
      if HoldsKeys(after[i]) { assert HoldsKeys(mid[i]); }
      if i == level { assert Passes(mid, powers, key, i - 1); }
    }
    forall j | 0 <= j < level ensures Passes(after, powers, key, j) && after[j].sealed {
      assert Passes(mid, powers, key, j);
    }
  }

  datatype SourceFate = Undisturbed | StopsAfterCapsule(torn: bool) | StopsAfterSlot

  datatype SourceOutcome = Added | AlreadyThere | Refused(error: Error) | Interrupted

  lemma WalkedDisk(start: Disk, mid: Chain<int>, name: ChainName, powers: seq<nat>, hash: Hash)
    requires Lawful(start, powers, hash) && LawfulChain(mid, name, start.capsules, powers, hash)
    requires Resealed(ChainAt(start.chains, name), mid)
    requires Clean(ChainAt(start.chains, name), powers) ==> Clean(mid, powers)
    ensures NothingStored(start, Disk(start.chains[name := mid], start.capsules), powers, hash)
    ensures CleanDisk(start, powers) ==> Clean(mid, powers)
  {
    EmptyIsClean(powers);
    SealsAtName(start, Disk(start.chains[name := mid], start.capsules), name);
  }

  lemma EmptyIsClean(powers: seq<nat>)
    ensures Clean<int>([], powers)
  {
  }

  lemma StoredAt(disk: Disk, name: ChainName, key: Key, level: nat, slot: nat, powers: seq<nat>, hash: Hash)
    requires Lawful(disk, powers, hash) && name in disk.chains && name.prefix == key[0]
    requires Seek(disk.chains[name], powers, key, 0) == At(level, slot)
    ensures var stored := disk.chains[name][level].slots[slot];
            && stored.Used? && 0 <= stored.payload < |disk.capsules| && disk.capsules[stored.payload].Whole?
            && Lookup(disk, powers, hash, name.space, key) == Some(disk.capsules[stored.payload].item)
  {
    assert AllPointRight(disk.chains[name][level].slots, name, disk.capsules, hash);
    assert NameOf(name.space, key) == name;
  }

  // ----- what a put answers -----

  ghost predicate InStep(start: Disk, disk: Disk, batch: Batch, items: seq<Item>, n: nat, powers: seq<nat>, hash: Hash)
  {
    && Lawful(start, powers, hash) && Usable(powers) && n <= |items|
    && StageAll(start, items[..n], powers, hash) == Kept(VirtualDisk(disk, batch), batch.seen)
  }

  /** How a batch ends: at its crash if it gets there, else at its first failing row, else stored. */
  ghost function RowsOutcome(start: Disk, items: seq<Item>, fate: Fate, powers: seq<nat>, hash: Hash)
    : (outcome: Outcome)
    requires Lawful(start, powers, hash) && Usable(powers)
    ensures outcome.Stored? ==> StageAll(start, items, powers, hash).Kept?
  {
    if fate.CrashWhileStaging? && fate.item < |items| && StageAll(start, items[..fate.item], powers, hash).Kept?
    then Crashed
    else
      match StageAll(start, items, powers, hash)
      case Fails(error) => Rejected(error)
      case Kept(_, _) => if fate.CrashWhileCommitting? then Crashed else Stored
  }

  ghost predicate NotYet(fate: Fate, i: nat) {
    fate.CrashWhileStaging? ==> i <= fate.item
  }

  lemma {:induction false} FailsStays(start: Disk, items: seq<Item>, n: nat, m: nat, powers: seq<nat>, hash: Hash)
    requires Lawful(start, powers, hash) && Usable(powers) && n <= m <= |items|
    requires StageAll(start, items[..n], powers, hash).Fails?
    ensures StageAll(start, items[..m], powers, hash) == StageAll(start, items[..n], powers, hash)
    decreases m
  {
    hide Lawful, StageOne;
    if n < m {
      FailsStays(start, items, n, m - 1, powers, hash);
      assert items[..m][..m - 1] == items[..m - 1];
    }
  }

  lemma StartsInStep(start: Disk, items: seq<Item>, powers: seq<nat>, hash: Hash)
    requires Lawful(start, powers, hash) && Usable(powers)
    ensures InStep(start, start, NO_BATCH, items, 0, powers, hash)
  {
    hide Lawful, Virtual;
    forall name | name in start.chains ensures Virtual(start.chains[name], NO_BATCH.On(name)) == start.chains[name] {
      NothingIsVirtual(start.chains[name]);
    }
  }

  lemma StageLast(start: Disk, items: seq<Item>, n: nat, powers: seq<nat>, hash: Hash)
    requires Lawful(start, powers, hash) && Usable(powers) && n < |items|
    requires StageAll(start, items[..n], powers, hash).Kept?
    ensures var kept := StageAll(start, items[..n], powers, hash);
            && Lawful(kept.disk, powers, hash)
            && StageAll(start, items[..n + 1], powers, hash)
               == StageOne(kept.disk, kept.seen, items[n], powers, hash)
  {
    hide Lawful, StageOne;
    assert items[..n + 1][..n] == items[..n];
  }

  lemma StaysInStep(start: Disk, disk: Disk, before: Batch, disk': Disk, batch: Batch, items: seq<Item>, i: nat,
      powers: seq<nat>, hash: Hash)
    requires i < |items| && InStep(start, disk, before, items, i, powers, hash)
    requires StagedLike(disk, before, disk', batch, None, items[i], powers, hash)
    ensures InStep(start, disk', batch, items, i + 1, powers, hash)
  {
    hide Lawful, StageAll, StageOne, VirtualDisk;
    StageLast(start, items, i, powers, hash);
  }

  lemma FailsHere(start: Disk, disk: Disk, before: Batch, items: seq<Item>, i: nat, error: Error, fate: Fate,
      powers: seq<nat>, hash: Hash)
    requires i < |items| && InStep(start, disk, before, items, i, powers, hash) && NotYet(fate, i + 1)
    requires Lawful(VirtualDisk(disk, before), powers, hash)
             && StageOne(VirtualDisk(disk, before), before.seen, items[i], powers, hash) == Fails(error)
    ensures RowsOutcome(start, items, fate, powers, hash) == Rejected(error)
  {
    hide Lawful, StageAll, StageOne, VirtualDisk;
    StageLast(start, items, i, powers, hash);
    FailsStays(start, items, i + 1, |items|, powers, hash);
    assert items[..|items|] == items;
    if fate.CrashWhileStaging? && fate.item < |items| { FailsStays(start, items, i + 1, fate.item, powers, hash); }
  }

  lemma NoKeyFails(start: Disk, disk: Disk, before: Batch, items: seq<Item>, i: nat, fate: Fate, powers: seq<nat>,
      hash: Hash)
    requires i < |items| && InStep(start, disk, before, items, i, powers, hash) && NotYet(fate, i + 1)
    requires hash(items[i].id) == None
    ensures RowsOutcome(start, items, fate, powers, hash) == Rejected(InvalidIdentity)
  {
    hide Lawful, StageAll, VirtualDisk, RowsOutcome;
    FailsHere(start, disk, before, items, i, InvalidIdentity, fate, powers, hash);
  }

  lemma StagedFails(start: Disk, disk: Disk, before: Batch, disk': Disk, batch: Batch, items: seq<Item>, i: nat,
      error: Error, fate: Fate, powers: seq<nat>, hash: Hash)
    requires i < |items| && InStep(start, disk, before, items, i, powers, hash) && NotYet(fate, i + 1)
    requires StagedLike(disk, before, disk', batch, Some(error), items[i], powers, hash)
    ensures RowsOutcome(start, items, fate, powers, hash) == Rejected(error)
  {
    hide Lawful, StageAll, StageOne, VirtualDisk, RowsOutcome;
    FailsHere(start, disk, before, items, i, error, fate, powers, hash);
  }

  lemma CrashesHere(start: Disk, disk: Disk, before: Batch, items: seq<Item>, i: nat, fate: Fate, powers: seq<nat>,
      hash: Hash)
    requires i < |items| && InStep(start, disk, before, items, i, powers, hash)
    requires fate.CrashWhileStaging? && fate.item == i
    ensures RowsOutcome(start, items, fate, powers, hash) == Crashed
  {
    hide Lawful, StageAll, VirtualDisk;
  }

  lemma EndsInStep(start: Disk, disk: Disk, batch: Batch, items: seq<Item>, fate: Fate, powers: seq<nat>, hash: Hash)
    requires InStep(start, disk, batch, items, |items|, powers, hash) && NotYet(fate, |items|)
    ensures StageAll(start, items, powers, hash) == Kept(VirtualDisk(disk, batch), batch.seen)
    ensures RowsOutcome(start, items, fate, powers, hash) == if fate.CrashWhileCommitting? then Crashed else Stored
  {
    hide Lawful, StageAll, VirtualDisk;
    assert items[..|items|] == items;
  }

  /** How a call of several chunks ends: as the first chunk that is not stored, else stored. */
  ghost function ManyOutcome(start: Disk, batches: seq<seq<Item>>, fates: nat -> Fate, powers: seq<nat>, hash: Hash)
    : (outcome: Outcome)
    requires Lawful(start, powers, hash) && Usable(powers)
    ensures outcome.Stored? ==> StoreAll(start, batches, powers, hash).Takes?
  {
    if batches == [] then Stored
    else
      var init := batches[..|batches| - 1];
      match ManyOutcome(start, init, fates, powers, hash)
      case Rejected(error) => Rejected(error)
      case Crashed => Crashed
      case Stored =>
        var disk := StoreAll(start, init, powers, hash).disk;
        RowsOutcome(disk, batches[|batches| - 1], fates(|batches| - 1), powers, hash)
  }

  lemma {:induction false} OutcomeStays(start: Disk, batches: seq<seq<Item>>, n: nat, m: nat, fates: nat -> Fate,
      powers: seq<nat>, hash: Hash)
    requires Lawful(start, powers, hash) && Usable(powers) && n <= m <= |batches|
    requires !ManyOutcome(start, batches[..n], fates, powers, hash).Stored?
    ensures ManyOutcome(start, batches[..m], fates, powers, hash)
         == ManyOutcome(start, batches[..n], fates, powers, hash)
    decreases m
  {
    hide Lawful, StoreAll, RowsOutcome;
    if n < m {
      OutcomeStays(start, batches, n, m - 1, fates, powers, hash);
      assert batches[..m][..m - 1] == batches[..m - 1];
    }
  }

  /** One more chunk of a call. */
  lemma NextChunk(start: Disk, batches: seq<seq<Item>>, k: nat, fates: nat -> Fate, powers: seq<nat>, hash: Hash)
    requires Lawful(start, powers, hash) && Usable(powers) && k < |batches|
    requires ManyOutcome(start, batches[..k], fates, powers, hash).Stored?
    ensures var mid := StoreAll(start, batches[..k], powers, hash);
            && mid.Takes? && Lawful(mid.disk, powers, hash)
            && ManyOutcome(start, batches[..k + 1], fates, powers, hash)
               == RowsOutcome(mid.disk, batches[k], fates(k), powers, hash)
            && (StageAll(mid.disk, batches[k], powers, hash).Kept? ==>
                  StoreAll(start, batches[..k + 1], powers, hash)
                  == Takes(StageAll(mid.disk, batches[k], powers, hash).disk))
  {
    hide Lawful, StageAll, RowsOutcome;
    assert batches[..k + 1][..k] == batches[..k];
  }

  /** Without a crash, a call is stored exactly if all its chunks are kept one after the other. */
  lemma {:induction false} CalmOutcome(start: Disk, batches: seq<seq<Item>>, fates: nat -> Fate, powers: seq<nat>,
      hash: Hash)
    requires Lawful(start, powers, hash) && Usable(powers) && forall k :: fates(k).Completes?
    ensures ManyOutcome(start, batches, fates, powers, hash)
         == match StoreAll(start, batches, powers, hash) case Takes(_) => Stored case Refuses(error) => Rejected(error)
  {
    hide Lawful, StageAll;
    if batches != [] { CalmOutcome(start, batches[..|batches| - 1], fates, powers, hash); }
  }

  /** How many rows were staged when the fate struck, and which slots it let through. */
  function CutRows(items: seq<Item>, fate: Fate): nat {
    if fate.CrashWhileStaging? then fate.item else |items|
  }

  function CutSlots(fate: Fate): set<(ChainName, Address)> {
    if fate.CrashWhileCommitting? then fate.landed else {}
  }

  /** What a batch leaves that its fate cut short. */
  ghost predicate CutShort(start: Disk, image: Disk, items: seq<Item>, fate: Fate, powers: seq<nat>, hash: Hash) {
    CutAt(start, image, items, CutRows(items, fate), CutSlots(fate), powers, hash)
  }

  lemma CutWhileStaging(start: Disk, disk: Disk, before: Batch, items: seq<Item>, i: nat, tail: seq<Capsule>,
      fate: Fate, powers: seq<nat>, hash: Hash)
    requires fate.CrashWhileStaging? && fate.item == i
    requires Progress(start, disk, before, items, i, powers, hash)
    requires InStep(start, disk, before, items, i, powers, hash)
    ensures CutShort(start, Disk(disk.chains, start.capsules + tail), items, fate, powers, hash)
  {
    hide Lawful, Progress, CrashOf, StageAll;
    StagedDiskIsCrash(start, disk, before, items, i, tail, powers, hash);
  }

  lemma CutWhilePublishing(start: Disk, disk: Disk, batch: Batch, items: seq<Item>, fate: Fate, powers: seq<nat>,
      hash: Hash)
    requires fate.CrashWhileCommitting?
    requires Progress(start, disk, batch, items, |items|, powers, hash)
    requires InStep(start, disk, batch, items, |items|, powers, hash)
    ensures CutShort(start, PublishDisk(disk, batch, fate.landed, fate.counted), items, fate, powers, hash)
  {
    hide Lawful, Progress, CrashOf, StageAll, PublishDisk;
    PublishedDiskIsCrash(start, disk, batch, items, |items|, fate.landed, fate.counted, powers, hash);
  }

  /** The first row that gives its identity a second binding. */
  ghost predicate FirstClash(items: seq<Item>, i: nat) {
    i < |items| && Consistent(items[..i]) && !Consistent(items[..i + 1])
  }

  /** A call that was refused in chunk `k`: the chunks before it are stored, and of that one nothing. */
  ghost predicate RejectedAt(start: Disk, image: Disk, batches: seq<seq<Item>>, k: nat, powers: seq<nat>, hash: Hash) {
    && Lawful(start, powers, hash) && Usable(powers) && k < |batches|
    && StoreAll(start, batches[..k], powers, hash).Takes? && StoreAll(start, batches[..k + 1], powers, hash).Refuses?
    && NothingStored(StoreAll(start, batches[..k], powers, hash).disk, image, powers, hash)
  }

  /** A call that was cut in chunk `k`, by the fate of that chunk. */
  ghost predicate BrokenOffAt(start: Disk, image: Disk, batches: seq<seq<Item>>, fates: nat -> Fate, k: nat,
      powers: seq<nat>, hash: Hash) {
    k < |batches| && LeftAt(start, image, batches, k, CutRows(batches[k], fates(k)), CutSlots(fates(k)), powers, hash)
  }

  /** What `put_many` answers, and what it leaves. */
  ghost predicate ManyDone(before: Disk, records: seq<Record>, fates: nat -> Fate, outcome: Outcome, after: Disk,
      limit: nat, powers: seq<nat>, hash: Hash) {
    && Lawful(before, powers, hash) && Usable(powers) && limit >= 1
    && if !Consistent(CheckOrder(records)) then
         && after == before
         && exists i: nat ::
           FirstClash(CheckOrder(records), i) && outcome == Rejected(Conflict(CheckOrder(records)[i].id))
       else
         var batches := Batches(records, limit);
         && outcome == ManyOutcome(before, batches, fates, powers, hash)
         && match outcome
            case Stored => StoreAll(before, batches, powers, hash) == Takes(after)
            case Rejected(_) => exists k: nat :: RejectedAt(before, after, batches, k, powers, hash)
            case Crashed => exists k: nat :: BrokenOffAt(before, after, batches, fates, k, powers, hash)
  }

  lemma ManyIntro(before: Disk, records: seq<Record>, fates: nat -> Fate, outcome: Outcome, after: Disk,
      limit: nat, powers: seq<nat>, hash: Hash)
    requires Lawful(before, powers, hash) && Usable(powers) && limit >= 1 && Consistent(CheckOrder(records))
    requires outcome == ManyOutcome(before, Batches(records, limit), fates, powers, hash)
    requires match outcome
             case Stored => StoreAll(before, Batches(records, limit), powers, hash) == Takes(after)
             case Rejected(_) => exists k: nat :: RejectedAt(before, after, Batches(records, limit), k, powers, hash)
             case Crashed => exists k: nat ::
                 BrokenOffAt(before, after, Batches(records, limit), fates, k, powers, hash)
    ensures ManyDone(before, records, fates, outcome, after, limit, powers, hash)
  {
    hide Lawful, Consistent, CheckOrder, ManyOutcome, StoreAll, Batches, RejectedAt, BrokenOffAt;
  }

  lemma ClashIntro(before: Disk, records: seq<Record>, fates: nat -> Fate, i: nat, limit: nat, powers: seq<nat>,
      hash: Hash)
    requires Lawful(before, powers, hash) && Usable(powers) && limit >= 1
    requires i < |CheckOrder(records)| && Consistent(CheckOrder(records)[..i])
             && !Consistent(CheckOrder(records)[..i + 1]) && !Consistent(CheckOrder(records))
    ensures ManyDone(before, records, fates, Rejected(Conflict(CheckOrder(records)[i].id)), before, limit, powers, hash)
  {
    hide Lawful, Consistent, CheckOrder;
    assert FirstClash(CheckOrder(records), i);
  }

  lemma NextOf(all: seq<seq<Item>>, done: seq<seq<Item>>, next: seq<Item>, rest: seq<seq<Item>>)
    requires all == done + ([next] + rest)
    ensures |done| < |all| && all[..|done|] == done && all[|done|] == next && all[..|done| + 1] == done + [next]
    ensures all == done + [next] + rest && all[..|all|] == all
  {
  }

  lemma NothingPutYet(start: Disk, fates: nat -> Fate, powers: seq<nat>, hash: Hash)
    requires Lawful(start, powers, hash) && Usable(powers)
    ensures StoreAll(start, [], powers, hash) == Takes(start)
    ensures ManyOutcome(start, [], fates, powers, hash) == Stored
  {
    hide Lawful;
  }

  lemma NoBatches(limit: nat)
    requires limit >= 1
    ensures Batches([], limit) == []
  {
  }

  lemma CutNext(records: seq<Record>, at: nat, next: nat, limit: nat)
    requires limit >= 1 && at < |records| && next == if at + limit <= |records| then at + limit else |records|
    ensures Batches(records[at..], limit) == [RowsOf(records[at..next])] + Batches(records[next..], limit)
  {
    hide RowsOf;
    assert records[at..][..next - at] == records[at..next] && records[at..][next - at..] == records[next..];
  }

  lemma {:induction false} SourcesAreChecked(records: seq<Record>, item: Item)
    requires item in SourceItems(records)
    ensures item in CheckOrder(records)
  {
    hide RoutesOf;
    if records != [] {
      var init, last := records[..|records| - 1], records[|records| - 1];
      if item in SourceItems(init) { SourcesAreChecked(init, item); }
    }
  }

  /** A call without a conflict has no chunk with one. */
  lemma ChunkIsConsistent(records: seq<Record>, at: nat, next: nat)
    requires at <= next <= |records| && Consistent(CheckOrder(records))
    ensures Consistent(SourceItems(records[at..next]))
  {
    hide SourceItems, CheckOrder, Consistent;
    forall item | item in SourceItems(records[at..next]) ensures item in CheckOrder(records) {
      SourcesOfPart(records, at, next, item);
      SourcesAreChecked(records, item);
    }
    PartIsConsistent(SourceItems(records[at..next]), CheckOrder(records));
  }

  lemma SourcesOfPart(records: seq<Record>, at: nat, next: nat, item: Item)
    requires at <= next <= |records| && item in SourceItems(records[at..next])
    ensures item in SourceItems(records)
  {
    hide SourceItems;
    assert records == records[..at] + (records[at..next] + records[next..]);
    SourceItemsConcat(records[..at], records[at..next] + records[next..]);
    SourceItemsConcat(records[at..next], records[next..]);
  }

  lemma PartIsConsistent(part: seq<Item>, items: seq<Item>)
    requires Consistent(items) && forall item :: item in part ==> item in items
    ensures Consistent(part)
  {
    forall i, j | 0 <= i < |part| && 0 <= j < |part| && part[i].id == part[j].id
      ensures part[i].binding == part[j].binding
    {
      assert part[i] in items && part[j] in items;
    }
  }

  lemma StoredIsKept(start: Disk, items: seq<Item>, fate: Fate, powers: seq<nat>, hash: Hash)
    requires Lawful(start, powers, hash) && Usable(powers) && RowsOutcome(start, items, fate, powers, hash).Stored?
    ensures StageAll(start, items, powers, hash).Kept?
  {
  }

  lemma EndsCall(start: Disk, before: Disk, image: Disk, batches: seq<seq<Item>>, fates: nat -> Fate, k: nat,
      outcome: Outcome, powers: seq<nat>, hash: Hash)
    requires Lawful(start, powers, hash) && Usable(powers) && k < |batches|
    requires StoreAll(start, batches[..k], powers, hash) == Takes(before)
    requires outcome == RowsOutcome(before, batches[k], fates(k), powers, hash)
    requires outcome.Rejected? ==> NothingStored(before, image, powers, hash)
    requires outcome.Crashed? ==> CutShort(before, image, batches[k], fates(k), powers, hash)
    ensures outcome.Rejected? ==> exists j: nat :: RejectedAt(start, image, batches, j, powers, hash)
    ensures outcome.Crashed? ==> exists j: nat :: BrokenOffAt(start, image, batches, fates, j, powers, hash)
  {
    hide Lawful, StageAll, NothingStored, CutAt;
    assert batches[..k + 1][..k] == batches[..k];
    if outcome.Rejected? { assert RejectedAt(start, image, batches, k, powers, hash); }
    if outcome.Crashed? { assert BrokenOffAt(start, image, batches, fates, k, powers, hash); }
  }

  function SourceItem(source: string, shard: string): Item { Item(SourceId(source), Lineage(shard)) }

  function Compared(stored: Item, item: Item): SourceOutcome {
    if stored.id != item.id then Refused(HashCollision)
    else if stored.binding != item.binding then Refused(LineageSplit)
    else AlreadyThere
  }

  /** What `put_source` answers: the source is bound already, or it has room, or it has none. */
  ghost function SourceAnswer(start: Disk, item: Item, fate: SourceFate, powers: seq<nat>, hash: Hash): SourceOutcome
    requires Lawful(start, powers, hash) && Usable(powers)
  {
    match hash(item.id)
    case None => Refused(InvalidIdentity)
    case Some(key) =>
      match Lookup(start, powers, hash, item.id.Space(), key)
      case Some(stored) => Compared(stored, item)
      case None =>
        if RoomFor(start, NameOf(item.id.Space(), key), powers) == 0 then Refused(CapacityExceeded)
        else if fate.Undisturbed? then Added
        else Interrupted
  }

  /** What `put_source` answers, and what it leaves. */
  ghost predicate SourceDone(before: Disk, item: Item, fate: SourceFate, outcome: SourceOutcome, after: Disk,
      powers: seq<nat>, hash: Hash) {
    && Lawful(before, powers, hash) && Lawful(after, powers, hash) && Usable(powers)
    && outcome == SourceAnswer(before, item, fate, powers, hash)
    && match outcome
       case Added => hash(item.id).Some? && PlaceOne(before, item, KeyOf(item, hash), powers, hash) == Takes(after)
       case AlreadyThere =>
         NothingStored(before, after, powers, hash) && Answered(after, powers, hash, item.id) == Bound(item.binding)
       case Refused(_) => NothingStored(before, after, powers, hash)
       case Interrupted => Grows(before, after)
  }

  lemma SourceAnswers(before: Disk, item: Item, fate: SourceFate, outcome: SourceOutcome, after: Disk,
      powers: seq<nat>, hash: Hash)
    requires SourceDone(before, item, fate, outcome, after, powers, hash)
    ensures outcome in {Added, AlreadyThere} ==>
              Lawful(after, powers, hash) && Answered(after, powers, hash, item.id) == Bound(item.binding)
  {
    hide Lawful, Lookup, Grows, SourceAnswer, NothingStored;
    if outcome.Added? { assert NowBound(before, after, item, KeyOf(item, hash), powers, hash); }
  }

  lemma SourceUnkeyed(start: Disk, item: Item, fate: SourceFate, powers: seq<nat>, hash: Hash)
    requires Lawful(start, powers, hash) && Usable(powers) && NothingStored(start, start, powers, hash)
    requires hash(item.id) == None
    ensures SourceDone(start, item, fate, Refused(InvalidIdentity), start, powers, hash)
  {
    hide Lawful, NothingStored, Lookup;
  }

  /** What the walk found is what a reader finds, or the lack of it. */
  lemma RouteSelected(start: Disk, item: Item, key: Key, mid: Chain<int>, selection: Selection, powers: seq<nat>,
      hash: Hash)
    requires Lawful(start, powers, hash) && Usable(powers) && hash(item.id) == Some(key)
    requires IsRoute(ChainAt(start.chains, NameOf(item.id.Space(), key)), mid, powers, key, selection)
    ensures var name := NameOf(item.id.Space(), key);
            var bound := Lookup(start, powers, hash, item.id.Space(), key);
            && RouteOf(start, item.id.Space(), key, powers, hash)
               == Route(if selection.Open? then Counted(mid, selection.level, true, powers) else mid, selection)
            && (bound.Some? <==> selection.Existing?)
            && (selection.NoRoom? <==> bound.None? && RoomFor(start, name, powers) == 0)
    ensures selection.Open? ==> selection.level < |mid| <= |powers|
  {
    hide Lawful, Lookup, Walk, Counted, Seek, Room;
    RouteIsWalk(start, item.id.Space(), key, powers, hash);
    RefusedIff(ChainAt(start.chains, NameOf(item.id.Space(), key)), powers, key);
  }

  /** The slot the walk found, read back. */
  lemma ExistingStored(start: Disk, mid: Chain<int>, key: Key, selection: Selection, name: ChainName, after: Disk,
      powers: seq<nat>, hash: Hash)
    requires NothingStored(start, after, powers, hash) && after == Disk(start.chains[name := mid], start.capsules)
    requires selection.Existing? && SelectionFits(ChainAt(start.chains, name), mid, key, selection, powers)
    requires name == NameOf(Sources, key)
    ensures selection.level < |mid| && selection.slot < |mid[selection.level].slots|
    ensures var stored := mid[selection.level].slots[selection.slot];
            && stored.Used? && 0 <= stored.payload < |start.capsules| && start.capsules[stored.payload].Whole?
            && Lawful(start, powers, hash)
            && Lookup(start, powers, hash, Sources, key) == Some(start.capsules[stored.payload].item)
  {
    hide Lawful, Lookup, SealsOnly, ProbeFrom;
    StoredAt(after, name, key, selection.level, selection.slot, powers, hash);
    SealsOnlyKeepsLookups(start, after, powers, hash, Sources, key);
  }

  lemma SourceRefused(start: Disk, item: Item, key: Key, selection: Selection, fate: SourceFate,
      outcome: SourceOutcome, after: Disk, powers: seq<nat>, hash: Hash)
    requires NothingStored(start, after, powers, hash) && Lawful(start, powers, hash) && Usable(powers)
    requires hash(item.id) == Some(key) && !selection.Open?
    requires selection.NoRoom? ==>
               && Lookup(start, powers, hash, item.id.Space(), key) == None
               && RoomFor(start, NameOf(item.id.Space(), key), powers) == 0
    requires selection.Existing? ==> Lookup(start, powers, hash, item.id.Space(), key).Some?
    requires outcome == if selection.NoRoom? then Refused(CapacityExceeded)
                        else Compared(Lookup(start, powers, hash, item.id.Space(), key).value, item)
    ensures SourceDone(start, item, fate, outcome, after, powers, hash)
  {
    hide Lawful, SealsOnly, Lookup, CleanDisk, Room;
    SealsOnlyKeepsLookups(start, after, powers, hash, item.id.Space(), key);
  }

  lemma SourcePlaced(start: Disk, item: Item, key: Key, selection: Selection, mid: Chain<int>, fate: SourceFate,
      outcome: SourceOutcome, after: Disk, powers: seq<nat>, hash: Hash)
    requires Lawful(start, powers, hash) && Lawful(after, powers, hash) && Usable(powers) && Grows(start, after)
    requires hash(item.id) == Some(key) && selection.Open? && selection.level < |mid| <= |powers|
    requires RouteOf(start, item.id.Space(), key, powers, hash)
             == Route(Counted(mid, selection.level, true, powers), selection)
    requires Lookup(start, powers, hash, item.id.Space(), key) == None
    requires RoomFor(start, NameOf(item.id.Space(), key), powers) > 0
    requires outcome == if fate.Undisturbed? then Added else Interrupted
    requires outcome.Added? ==>
               && selection.slot < |mid[selection.level].slots|
               && after == Disk(start.chains[NameOf(item.id.Space(), key) :=
                                  WithSlot(Counted(mid, selection.level, true, powers), selection.level,
                                           selection.slot, Used(key, |start.capsules|))],
                                start.capsules + [Whole(item)])
    ensures SourceDone(start, item, fate, outcome, after, powers, hash)
  {
    hide Lawful, Lookup, RouteOf, Grows, Counted, Room;
    if outcome.Added? { OpenPlaces(start, item, key, powers, hash); }
  }

  // ----- whole runs of calls -----

  const CALM: nat -> Fate := _ => Completes

  const CUT_BEFORE_SLOTS: nat -> Fate := _ => CrashWhileCommitting({}, {})

  datatype Reply = OfMany(many: Outcome) | OfSource(single: SourceOutcome) {
    predicate Done() {
      match this
      case OfMany(outcome) => outcome.Stored?
      case OfSource(outcome) => outcome in {Added, AlreadyThere}
    }
  }

  /** The call was answered, and left the disk, as it must from the disk it found. */
  ghost predicate Replied(before: Disk, call: Call, reply: Reply, after: Disk, limit: nat, powers: seq<nat>, hash: Hash)
  {
    match call
    case Many(records, fates) =>
      reply.OfMany? && ManyDone(before, records, fates, reply.many, after, limit, powers, hash)
    case Single(source, shard, fate) =>
      reply.OfSource? && SourceDone(before, SourceItem(source, shard), fate, reply.single, after, powers, hash)
  }

  function ChunksOf(call: Call, limit: nat): seq<seq<Item>>
    requires limit >= 1
  {
    match call
    case Many(records, _) => Batches(records, limit)
    case Single(source, shard, _) => [[SourceItem(source, shard)]]
  }

  /** Everything the call gave is bound, and each first row of a key in a chunk under its own identity. */
  ghost predicate BoundBy(disk: Disk, call: Call, limit: nat, powers: seq<nat>, hash: Hash)
    requires Lawful(disk, powers, hash) && limit >= 1
  {
    && AllBound(disk, GivenBy(call), powers, hash)
    && forall k :: 0 <= k < |ChunksOf(call, limit)| ==>
         FirstsBound(disk, ChunksOf(call, limit)[k], |ChunksOf(call, limit)[k]|, powers, hash)
  }

  lemma FirstsStay(before: Disk, after: Disk, items: seq<Item>, powers: seq<nat>, hash: Hash)
    requires Lawful(before, powers, hash) && Lawful(after, powers, hash) && Grows(before, after)
    requires FirstsBound(before, items, |items|, powers, hash)
    ensures FirstsBound(after, items, |items|, powers, hash)
  {
    hide Lawful, Lookup, Grows, FirstOfKey;
    forall j | 0 <= j < |items| && FirstOfKey(items, j, hash)
      ensures SeenKeyOf(items[j], hash).Some? && var sk := SeenKeyOf(items[j], hash).value;
              Lookup(after, powers, hash, sk.space, sk.key) == Some(items[j])
    {
      var sk := SeenKeyOf(items[j], hash).value;
      LookupIsStable(before, after, powers, hash, sk.space, sk.key);
    }
  }

  lemma {:induction false} StoredBinds(start: Disk, batches: seq<seq<Item>>, k: nat, powers: seq<nat>, hash: Hash)
    requires Lawful(start, powers, hash) && Usable(powers) && StoreAll(start, batches, powers, hash).Takes?
    requires k < |batches|
    ensures var now := StoreAll(start, batches, powers, hash).disk;
            FirstsBound(now, batches[k], |batches[k]|, powers, hash) && AllBound(now, batches[k], powers, hash)
  {
    hide Lawful, StageAll, Grows, FirstsBound, AllBound;
    var init, last := batches[..|batches| - 1], batches[|batches| - 1];
    var mid := StoreAll(start, init, powers, hash).disk;
    var now := StageAll(mid, last, powers, hash).disk;
    StagedIsStored(mid, last, powers, hash);
    if k < |init| {
      StoredBinds(start, init, k, powers, hash);
      StoredGrew(mid, now, last, powers, hash);
      FirstsStay(mid, now, batches[k], powers, hash);
      BoundIsStable(mid, now, batches[k], powers, hash);
    } else {
      StoredGrew(mid, now, last, powers, hash);
    }
  }

  lemma StoredGrew(before: Disk, after: Disk, items: seq<Item>, powers: seq<nat>, hash: Hash)
    requires BatchStored(before, after, items, powers, hash)
    ensures Lawful(before, powers, hash) && Lawful(after, powers, hash) && Grows(before, after)
    ensures FirstsBound(after, items, |items|, powers, hash) && AllBound(after, items, powers, hash)
  {
    hide Lawful, Grows, FirstsBound, CleanDisk, RowBound;
  }

  /** What a call that was done gave is bound right after it. */
  lemma DoneIsBound(before: Disk, call: Call, reply: Reply, after: Disk, limit: nat, powers: seq<nat>, hash: Hash)
    requires Replied(before, call, reply, after, limit, powers, hash) && reply.Done() && limit >= 1
    ensures Lawful(after, powers, hash) && BoundBy(after, call, limit, powers, hash)
  {
    hide Lawful, StoreAll, FirstsBound, Batches, AllItems, Lookup, Grows, NothingStored, SourceAnswer;
    match call
    case Many(records, fates) =>
      var batches := Batches(records, limit);
      StoredOutcome(before, records, fates, after, limit, powers, hash);
      BatchesHaveAll(records, limit);
      forall k | 0 <= k < |batches|
        ensures FirstsBound(after, batches[k], |batches[k]|, powers, hash) && AllBound(after, batches[k], powers, hash)
      {
        StoredBinds(before, batches, k, powers, hash);
      }
    case Single(source, shard, fate) =>
      SourceAnswers(before, SourceItem(source, shard), fate, reply.single, after, powers, hash);
      OneIsBound(after, SourceItem(source, shard), powers, hash);
  }

  lemma StoredOutcome(before: Disk, records: seq<Record>, fates: nat -> Fate, after: Disk, limit: nat,
      powers: seq<nat>, hash: Hash)
    requires ManyDone(before, records, fates, Stored, after, limit, powers, hash)
    ensures Lawful(before, powers, hash) && Usable(powers) && limit >= 1
    ensures StoreAll(before, Batches(records, limit), powers, hash) == Takes(after) && Lawful(after, powers, hash)
  {
    hide Lawful, StoreAll, Batches, ManyOutcome, CheckOrder, Consistent;
  }

  lemma OneIsBound(disk: Disk, item: Item, powers: seq<nat>, hash: Hash)
    requires Lawful(disk, powers, hash) && Answered(disk, powers, hash, item.id) == Bound(item.binding)
    ensures FirstsBound(disk, [item], 1, powers, hash) && AllBound(disk, [item], powers, hash)
  {
    hide Lawful, Lookup;
  }

  lemma BoundStays(before: Disk, after: Disk, call: Call, limit: nat, powers: seq<nat>, hash: Hash)
    requires Lawful(before, powers, hash) && Lawful(after, powers, hash) && Grows(before, after) && limit >= 1
    requires BoundBy(before, call, limit, powers, hash)
    ensures BoundBy(after, call, limit, powers, hash)
  {
    hide Lawful, Grows, AllBound, FirstsBound, GivenBy, ChunksOf;
    BoundIsStable(before, after, GivenBy(call), powers, hash);
    forall k | 0 <= k < |ChunksOf(call, limit)|
      ensures FirstsBound(after, ChunksOf(call, limit)[k], |ChunksOf(call, limit)[k]|, powers, hash)
    {
      FirstsStay(before, after, ChunksOf(call, limit)[k], powers, hash);
    }
  }

  // ----- calm runs -----

  function Calm(call: Call): Call {
    match call
    case Many(records, _) => Many(records, CALM)
    case Single(source, shard, _) => Single(source, shard, Undisturbed)
  }

  function Joined(parts: seq<seq<Item>>): seq<Item> {
    if parts == [] then [] else Joined(parts[..|parts| - 1]) + parts[|parts| - 1]
  }

  lemma JoinedLast(parts: seq<seq<Item>>, last: seq<Item>)
    ensures Joined(parts + [last]) == Joined(parts) + last
  {
    assert (parts + [last])[..|parts|] == parts;
  }

  /** The chunks of a call before the first that is refused. */
  ghost function KeptChunks(start: Disk, batches: seq<seq<Item>>, powers: seq<nat>, hash: Hash): seq<seq<Item>>
    requires Lawful(start, powers, hash) && Usable(powers)
  {
    if batches == [] || StoreAll(start, batches, powers, hash).Takes? then batches
    else KeptChunks(start, batches[..|batches| - 1], powers, hash)
  }

  /** What a call that no crash interrupts writes. */
  ghost function WrittenBy(before: Disk, call: Call, reply: Reply, limit: nat, powers: seq<nat>, hash: Hash): seq<Item>
    requires Lawful(before, powers, hash) && Usable(powers) && limit >= 1
  {
    match call
    case Many(records, _) =>
      if Consistent(CheckOrder(records)) then Joined(KeptChunks(before, Batches(records, limit), powers, hash)) else []
    case Single(source, shard, _) => if reply == OfSource(Added) then [SourceItem(source, shard)] else []
  }

  lemma {:induction false} FirstOfBoth(a: seq<Item>, b: seq<Item>, sk: SeenKey, hash: Hash)
    ensures FirstItem(a + b, sk, hash)
         == if FirstItem(a, sk, hash).Some? then FirstItem(a, sk, hash) else FirstItem(b, sk, hash)
  {
    hide SeenKeyOf;
    if b == [] {
      assert a + b == a;
    } else {
      assert (a + b)[..|a + b| - 1] == a + b[..|b| - 1];
      FirstOfBoth(a, b[..|b| - 1], sk, hash);
    }
  }

  lemma NothingWritten(hash: Hash)
    ensures Joined([]) == [] && forall sk :: FirstItem([], sk, hash) == None
  {
  }

  /** What was bound stays, and what was not is bound as the first of the items says. */
  ghost predicate Writes(before: Disk, after: Disk, items: seq<Item>, powers: seq<nat>, hash: Hash)
    requires Lawful(before, powers, hash) && Lawful(after, powers, hash)
  {
    forall space, key: Key :: Lookup(after, powers, hash, space, key) ==
                              if Lookup(before, powers, hash, space, key).Some?
                              then Lookup(before, powers, hash, space, key)
                              else FirstItem(items, SeenKey(space, key), hash)
  }

  lemma {:induction false} StoreWrites(start: Disk, batches: seq<seq<Item>>, powers: seq<nat>, hash: Hash)
    requires Lawful(start, powers, hash) && Usable(powers) && CleanDisk(start, powers)
    requires StoreAll(start, batches, powers, hash).Takes?
    ensures var now := StoreAll(start, batches, powers, hash).disk;
            CleanDisk(now, powers) && Writes(start, now, Joined(batches), powers, hash)
  {
    hide Lawful, StageAll, CleanDisk, Lookup, FirstItem;
    if batches == [] {
      NothingWritten(hash);
    } else {
      var init, last := batches[..|batches| - 1], batches[|batches| - 1];
      var mid := StoreAll(start, init, powers, hash).disk;
      var now := StageAll(mid, last, powers, hash).disk;
      StoreWrites(start, init, powers, hash);
      StageKeepsClean(mid, last, powers, hash);
      StagedIsStored(mid, last, powers, hash);
      forall space, key: Key
        ensures Lookup(now, powers, hash, space, key) ==
          if Lookup(start, powers, hash, space, key).Some? then Lookup(start, powers, hash, space, key)
          else FirstItem(Joined(batches), SeenKey(space, key), hash)
      {
        AcceptedWrites(mid, now, last, powers, hash, space, key);
        FirstOfBoth(Joined(init), last, SeenKey(space, key), hash);
      }
    }
  }

  /** One call more: what it wrote is found where nothing was before. */
  lemma MoreWritten(before: Disk, after: Disk, written: seq<seq<Item>>, mine: seq<Item>, powers: seq<nat>, hash: Hash)
    requires Lawful(before, powers, hash) && Lawful(after, powers, hash) && Writes(before, after, mine, powers, hash)
    requires forall space, key: Key ::
               Lookup(before, powers, hash, space, key) == FirstItem(Joined(written), SeenKey(space, key), hash)
    ensures forall space, key: Key :: Lookup(after, powers, hash, space, key)
                                      == FirstItem(Joined(written + [mine]), SeenKey(space, key), hash)
  {
    hide Lawful, Lookup, FirstItem, Joined;
    JoinedLast(written, mine);
    forall space, key: Key
      ensures Lookup(after, powers, hash, space, key) == FirstItem(Joined(written + [mine]), SeenKey(space, key), hash)
    {
      FirstOfBoth(Joined(written), mine, SeenKey(space, key), hash);
    }
  }

  /** The chunks kept are those before the one that was refused. */
  lemma {:induction false} KeptBefore(start: Disk, batches: seq<seq<Item>>, k: nat, powers: seq<nat>, hash: Hash)
    requires Lawful(start, powers, hash) && Usable(powers) && k < |batches|
    requires StoreAll(start, batches[..k], powers, hash).Takes?
    requires StoreAll(start, batches[..k + 1], powers, hash).Refuses?
    ensures StoreAll(start, batches, powers, hash).Refuses?
    ensures KeptChunks(start, batches, powers, hash) == batches[..k]
  {
    hide Lawful, StageAll;
    var init := batches[..|batches| - 1];
    if k + 1 == |batches| {
      assert batches[..k + 1] == batches && init == batches[..k];
    } else {
      assert init[..k] == batches[..k] && init[..k + 1] == batches[..k + 1];
      KeptBefore(start, init, k, powers, hash);
    }
  }

  /** One call of a calm run. */
  lemma CallWrites(before: Disk, call: Call, reply: Reply, after: Disk, limit: nat, powers: seq<nat>, hash: Hash)
    requires Replied(before, Calm(call), reply, after, limit, powers, hash) && limit >= 1
    requires Lawful(before, powers, hash) && Lawful(after, powers, hash) && Usable(powers) && CleanDisk(before, powers)
    ensures CleanDisk(after, powers)
    ensures Writes(before, after, WrittenBy(before, call, reply, limit, powers, hash), powers, hash)
  {
    hide Lawful, CleanDisk, Writes, ManyDone, SourceDone, StoreAll, Batches, CheckOrder, Consistent;
    match call
    case Many(records, _) =>
      ManyWrites(before, records, reply.many, after, limit, powers, hash);
    case Single(source, shard, _) =>
      SourceWrites(before, SourceItem(source, shard), reply.single, after, powers, hash);
  }

  lemma ManyWrites(before: Disk, records: seq<Record>, outcome: Outcome, after: Disk, limit: nat, powers: seq<nat>,
      hash: Hash)
    requires ManyDone(before, records, CALM, outcome, after, limit, powers, hash)
    requires Lawful(before, powers, hash) && Lawful(after, powers, hash) && CleanDisk(before, powers)
    ensures Usable(powers) && limit >= 1 && CleanDisk(after, powers)
    ensures Writes(before, after,
              if Consistent(CheckOrder(records)) then Joined(KeptChunks(before, Batches(records, limit), powers, hash))
              else [], powers, hash)
  {
    hide Lawful, CleanDisk, Writes, StoreAll, Batches, CheckOrder, Consistent, ManyOutcome, RejectedAt, BrokenOffAt;
    if !Consistent(CheckOrder(records)) {
      WritesNothing(before, after, powers, hash);
    } else {
      var batches := Batches(records, limit);
      CalmOutcome(before, batches, CALM, powers, hash);
      if outcome.Stored? {
        StoreWrites(before, batches, powers, hash);
      } else {
        var k: nat :| RejectedAt(before, after, batches, k, powers, hash);
        RefusedWrites(before, batches, k, after, powers, hash);
      }
    }
  }

  lemma WritesNothing(disk: Disk, after: Disk, powers: seq<nat>, hash: Hash)
    requires Lawful(disk, powers, hash) && Lawful(after, powers, hash)
    requires after == disk || NothingStored(disk, after, powers, hash)
    ensures Writes(disk, after, [], powers, hash)
  {
    hide Lawful, Lookup, CleanDisk, SealsOnly;
    if after != disk {
      forall space, key: Key
        ensures Lookup(after, powers, hash, space, key) == Lookup(disk, powers, hash, space, key)
      {
        SealsOnlyKeepsLookups(disk, after, powers, hash, space, key);
      }
    }
  }

  lemma RefusedWrites(before: Disk, batches: seq<seq<Item>>, k: nat, after: Disk, powers: seq<nat>, hash: Hash)
    requires RejectedAt(before, after, batches, k, powers, hash) && CleanDisk(before, powers)
    requires Lawful(after, powers, hash)
    ensures Lawful(before, powers, hash) && Usable(powers) && CleanDisk(after, powers)
    ensures Writes(before, after, Joined(KeptChunks(before, batches, powers, hash)), powers, hash)
  {
    hide Lawful, CleanDisk, StoreAll, Lookup, FirstItem, NothingStored;
    var mid := StoreAll(before, batches[..k], powers, hash).disk;
    KeptBefore(before, batches, k, powers, hash);
    StoreWrites(before, batches[..k], powers, hash);
    NothingKeepsClean(mid, after, powers, hash);
    WritesNothing(mid, after, powers, hash);
    NothingWritten(hash);
  }

  lemma NothingKeepsClean(before: Disk, after: Disk, powers: seq<nat>, hash: Hash)
    requires NothingStored(before, after, powers, hash) && CleanDisk(before, powers)
    ensures CleanDisk(after, powers)
  {
    hide CleanDisk, Lawful;
  }

  lemma SourceWrites(before: Disk, item: Item, outcome: SourceOutcome, after: Disk, powers: seq<nat>, hash: Hash)
    requires SourceDone(before, item, Undisturbed, outcome, after, powers, hash)
    requires CleanDisk(before, powers)
    ensures Lawful(before, powers, hash) && Lawful(after, powers, hash) && CleanDisk(after, powers)
    ensures Writes(before, after, if outcome == Added then [item] else [], powers, hash)
  {
    hide Lawful, CleanDisk, Lookup, NothingStored, Writes, PlaceOne;
    if outcome == Added {
      var key := KeyOf(item, hash);
      PutKeepsClean(before, item, key, powers, hash);
      AddedWrites(before, item, key, powers, hash);
    } else {
      NothingKeepsClean(before, after, powers, hash);
      WritesNothing(before, after, powers, hash);
    }
  }

  lemma AddedWrites(before: Disk, item: Item, key: Key, powers: seq<nat>, hash: Hash)
    requires Lawful(before, powers, hash) && Usable(powers) && hash(item.id) == Some(key) && CleanDisk(before, powers)
    requires PlaceOne(before, item, key, powers, hash).Takes?
    ensures Writes(before, PlaceOne(before, item, key, powers, hash).disk, [item], powers, hash)
  {
    hide Lawful, CleanDisk, Lookup, PlaceOne, Grows;
    var after := PlaceOne(before, item, key, powers, hash).disk;
    assert NowBound(before, after, item, key, powers, hash);
    forall space, other: Key
      ensures Lookup(after, powers, hash, space, other) ==
        if Lookup(before, powers, hash, space, other).Some? then Lookup(before, powers, hash, space, other)
        else FirstItem([item], SeenKey(space, other), hash)
    {
      OneItem(item, SeenKey(space, other), hash);
      if (space, other) == (item.id.Space(), key) {
        if Lookup(before, powers, hash, space, other).Some? {
          LookupIsStable(before, after, powers, hash, space, other);
        }
      } else {
        PutMovesOnly(before, item, key, space, other, powers, hash);
      }
    }
  }

  lemma OneItem(item: Item, sk: SeenKey, hash: Hash)
    ensures FirstItem([item], sk, hash) == if SeenKeyOf(item, hash) == Some(sk) then Some(item) else None
  {
    assert [item][..0] == [];
  }

  // ----- putting a call again after crashes -----

  lemma StoredIsBound(before: Disk, after: Disk, items: seq<Item>, powers: seq<nat>, hash: Hash)
    requires RecordsStored(before, after, items, powers, hash)
    ensures Lawful(after, powers, hash) && AllBound(after, items, powers, hash)
  {
    hide Lawful, AllBound;
  }

  lemma CalmIsNoCrash(before: Disk, records: seq<Record>, fates: nat -> Fate, outcome: Outcome, after: Disk, limit: nat,
      powers: seq<nat>, hash: Hash)
    requires ManyDone(before, records, fates, outcome, after, limit, powers, hash) && forall k :: fates(k).Completes?
    ensures !outcome.Crashed?
  {
    hide Lawful, StoreAll, Batches, CheckOrder, Consistent, ManyOutcome, RejectedAt, BrokenOffAt;
    if Consistent(CheckOrder(records)) { CalmOutcome(before, Batches(records, limit), fates, powers, hash); }
  }

  /** A rejection is the refusal of the chunks, whatever the fates. */
  lemma {:induction false} RejectedRefuses(start: Disk, batches: seq<seq<Item>>, fates: nat -> Fate, powers: seq<nat>,
      hash: Hash)
    requires Lawful(start, powers, hash) && Usable(powers)
    requires ManyOutcome(start, batches, fates, powers, hash).Rejected?
    ensures StoreAll(start, batches, powers, hash)
         == Refuses(ManyOutcome(start, batches, fates, powers, hash).error)
  {
    hide Lawful, StageAll;
    if batches != [] {
      var init := batches[..|batches| - 1];
      if ManyOutcome(start, init, fates, powers, hash).Rejected? {
        RejectedRefuses(start, init, fates, powers, hash);
      }
    }
  }

  /** How one of several tries ends, when the rows agreed with the disk at the start. */
  lemma TryEnds(start: Disk, before: Disk, records: seq<Record>, fates: nat -> Fate, outcome: Outcome, after: Disk,
      tries: nat, all: nat, limit: nat, powers: seq<nat>, hash: Hash)
    requires ManyDone(before, records, fates, outcome, after, limit, powers, hash)
    requires Lawful(start, powers, hash) && Lawful(before, powers, hash) && Lawful(after, powers, hash)
    requires Grows(before, after) && Consistent(CheckOrder(records)) && tries < all
    requires Agrees(before, AllItems(records), hash)
    requires CostsUpTo(start, before, AllItems(records), tries, powers, hash)
    ensures match outcome
            case Stored => true
            case Rejected(error) =>
              error == CapacityExceeded && !HasRoomFor(start, AllItems(records), all, powers, hash)
            case Crashed =>
              && Agrees(after, AllItems(records), hash)
              && CostsUpTo(start, after, AllItems(records), tries + 1, powers, hash)
  {
    hide Lawful, Grows, StoreAll, Batches, CheckOrder, Consistent, ManyOutcome, RejectedAt, BrokenOffAt, Agrees,
         AllItems, Missing, RoomFor, CostsUpTo, HasRoomFor, HasRoom;
    var batches, rows := Batches(records, limit), AllItems(records);
    BatchesHaveAll(records, limit);
    match outcome
    case Stored =>
    case Rejected(error) =>
      RejectedRefuses(before, batches, fates, powers, hash);
      CallSuffices(before, batches, rows, powers, hash);
      if HasRoomFor(start, rows, all, powers, hash) { RoomIsLeft(start, before, rows, tries, all, powers, hash); }
    case Crashed =>
      var k: nat :| BrokenOffAt(before, after, batches, fates, k, powers, hash);
      TryCosts(start, before, after, batches, fates, k, rows, tries, powers, hash);
  }

  lemma TryCosts(start: Disk, before: Disk, after: Disk, batches: seq<seq<Item>>, fates: nat -> Fate, k: nat,
      rows: seq<Item>, tries: nat, powers: seq<nat>, hash: Hash)
    requires BrokenOffAt(before, after, batches, fates, k, powers, hash) && Within(batches, rows)
    requires Lawful(start, powers, hash) && Lawful(before, powers, hash) && Lawful(after, powers, hash)
    requires Grows(before, after) && Agrees(before, rows, hash)
    requires CostsUpTo(start, before, rows, tries, powers, hash)
    ensures Agrees(after, rows, hash) && CostsUpTo(start, after, rows, tries + 1, powers, hash)
  {
    hide Lawful, Grows, StoreAll, Agrees, LeftAt, CostsUpTo, TookNoMore;
    CrashTakesNoMore(before, after, batches, k, CutRows(batches[k], fates(k)), CutSlots(fates(k)), rows, powers, hash);
    CostsOneMore(start, before, after, rows, tries, powers, hash);
  }

  // ----- the store -----

  class ExactReplayStore {
    const powers: seq<nat>
    const hash: Hash
    const writeBatchLimit: nat
    var chains: map<ChainName, Chain<int>>
    var capsules: seq<Capsule>

    ghost function Image(): Disk reads this { Disk(chains, capsules) }

    ghost predicate Configured() {
      writeBatchLimit >= 1 && |powers| >= 1 && Usable(powers)
    }

    ghost predicate Valid() reads this { Configured() && Lawful(Image(), powers, hash) }

    /** A store over an empty directory. */
    constructor (slotPowers: seq<nat>, keyOf: Hash, limit: nat)
      requires limit >= 1 && |slotPowers| >= 1 && Usable(slotPowers)
      ensures Valid() && Image() == Disk(map[], []) && CleanDisk(Image(), powers)
      ensures powers == slotPowers && hash == keyOf && writeBatchLimit == limit
      ensures forall id :: Answered(Image(), powers, hash, id) in {InvalidAddress, Absent}
    {
      powers, hash, writeBatchLimit := slotPowers, keyOf, limit;
      chains, capsules := map[], [];
    }

    /** `get` and `source_shard`: one level after another until the answer is settled. */
    method Get(id: Identity) returns (answer: Answer)
      requires Valid()
      ensures answer == Answered(Image(), powers, hash, id)
    {
      var hashed := hash(id);
      if hashed.None? { return InvalidAddress; }
      var key := hashed.value;
      var offset := FindItem(Disk(chains, capsules), powers, hash, id.Space(), key);
      if offset.None? { return Absent; }
      var item := capsules[offset.value].item;
      answer := if item.id == id then Bound(item.binding) else IdentityMismatch;
    }

    /** One row of a batch. */
    method Stage(item: Item, key: Key, before: Batch) returns (batch: Batch, error: Option<Error>)
      requires Configured() && BatchHolds(Image(), before, powers, hash) && hash(item.id) == Some(key)
      modifies this`chains, this`capsules
      ensures ItemStep(old(Image()), before, Image(), batch, error, item, key, powers, hash)
      ensures StagedLike(old(Image()), before, Image(), batch, error, item, powers, hash)
    {
      hide ItemStep, StagedLike;
      var disk;
      disk, batch, error := StageItem(Disk(chains, capsules), item, key, before, powers, hash);
      chains, capsules := disk.chains, disk.capsules;
    }

    // ----- puts -----

    /** The crash before publication: of the batch's capsules some whole ones survive, perhaps one torn. */
    method LoseTail(ghost start: Disk, synced: nat, kept: nat, torn: bool, ghost items: seq<Item>)
      returns (ghost tail: seq<Capsule>)
      requires Configured() && Lawful(start, powers, hash) && Lawful(Image(), powers, hash)
      requires SealsOnly(start, Image()) && synced == |start.capsules| && CapsulesFrom(start.capsules, capsules, items)
      modifies this`capsules
      ensures Valid() && Grows(start, Image()) && CapsulesFrom(start.capsules, capsules, items)
      ensures Image() == Disk(old(chains), start.capsules + tail)
    {
      ghost var disk := Image();
      var whole := if synced + kept <= |capsules| then synced + kept else |capsules|;
      tail := capsules[synced..whole] + (if torn then [Torn] else []);
      capsules := capsules[..whole] + (if torn then [Torn] else []);
      assert capsules == start.capsules + tail;
      LostTailIsNothing(start, disk, tail, powers, hash);
      SealsOnlyGrows(start, Image());
    }

    /** The staged slots and level counts are written; a crash lets through only a part. */
    method Commit(batch: Batch, landed: set<(ChainName, Address)>, counted: set<(ChainName, nat)>)
      requires batch.touched.Keys <= chains.Keys
      modifies this`chains
      ensures Image() == PublishDisk(old(Image()), batch, landed, counted)
    {
      var disk := PublishChains(Disk(chains, capsules), batch, landed, counted);
      chains := disk.chains;
    }

    /** One turn of the staging loop, up to a rejection, a crash or the next row. */
    method StageRow(ghost start: Disk, synced: nat, items: seq<Item>, i: nat, before: Batch, fate: Fate)
      returns (batch: Batch, halted: Option<Outcome>)
      requires Configured() && i < |items| && synced == |start.capsules| && NotYet(fate, i)
      requires Progress(start, Image(), before, items, i, powers, hash)
      requires InStep(start, Image(), before, items, i, powers, hash)
      modifies this
      ensures Configured()
      ensures halted.None? ==>
                && Progress(start, Image(), batch, items, i + 1, powers, hash) && NotYet(fate, i + 1)
                && InStep(start, Image(), batch, items, i + 1, powers, hash)
      ensures halted.Some? ==> Halted(start, items, fate, halted.value)
    {
      hide Lawful, ItemStep, BatchHolds, SealsOnly, AllUncrashed, CapsulesFrom, Grows, Dealt, FirstsBound, CleanDisk,
        UnseenKept, NothingStored, InStep, StagedLike, RowsOutcome, CutShort;
      batch, halted := before, None;
      ghost var disk := Image();
      ProgressWithinLoad(start, disk, before, items, i, powers, hash);
      if fate.CrashWhileStaging? && fate.item == i {
        ghost var tail := LoseTail(start, synced, fate.kept, fate.torn, items);
        CrashesHere(start, disk, before, items, i, fate, powers, hash);
        CutWhileStaging(start, disk, before, items, i, tail, fate, powers, hash);
        return batch, Some(Crashed);
      }
      var hashed := hash(items[i].id);
      if hashed.None? {
        NothingChanged(disk);
        StagingIsNothing(start, disk, before, disk, items, i, powers, hash);
        NoKeyFails(start, disk, before, items, i, fate, powers, hash);
        return batch, Some(Rejected(InvalidIdentity));
      }
      var error;
      batch, error := Stage(items[i], hashed.value, before);
      if error.Some? {
        RejectedItem(start, disk, before, Image(), batch, error.value, items, i, hashed.value, powers, hash);
        StagedFails(start, disk, before, Image(), batch, items, i, error.value, fate, powers, hash);
        return batch, Some(Rejected(error.value));
      }
      ProgressStep(start, disk, before, Image(), batch, items, i, hashed.value, powers, hash);
      StaysInStep(start, disk, before, Image(), batch, items, i, powers, hash);
    }

    /** A batch that ended before publication. */
    ghost predicate Halted(start: Disk, items: seq<Item>, fate: Fate, outcome: Outcome) reads this {
      && Valid() && CapsulesFrom(start.capsules, capsules, items)
      && Lawful(start, powers, hash) && outcome == RowsOutcome(start, items, fate, powers, hash)
      && match outcome
         case Stored => false
         case Rejected(_) => NothingStored(start, Image(), powers, hash)
         case Crashed => Grows(start, Image()) && CutShort(start, Image(), items, fate, powers, hash)
    }

    /** The staging loop of `_put_many_chunk`. */
    method StageRows(items: seq<Item>, fate: Fate) returns (batch: Batch, halted: Option<Outcome>)
      requires Valid()
      modifies this
      ensures Configured()
      ensures halted.None? ==>
                && Progress(old(Image()), Image(), batch, items, |items|, powers, hash) && NotYet(fate, |items|)
                && InStep(old(Image()), Image(), batch, items, |items|, powers, hash)
      ensures halted.Some? ==> Halted(old(Image()), items, fate, halted.value)
    {
      hide Lawful, Progress, Halted, InStep;
      ghost var start := Image();
      var synced := |capsules|;
      batch, halted := NO_BATCH, None;
      ProgressStart(start, items, powers, hash);
      StartsInStep(start, items, powers, hash);
      var i := 0;
      while i < |items|
        invariant 0 <= i <= |items| && Configured() && halted.None? && NotYet(fate, i)
        invariant Progress(start, Image(), batch, items, i, powers, hash)
        invariant InStep(start, Image(), batch, items, i, powers, hash)
      {
        batch, halted := StageRow(start, synced, items, i, batch, fate);
        if halted.Some? { return; }
        i := i + 1;
      }
    }

    /** `_put_many_chunk` over its rows: stage them all, then publish, under the environment's fate. */
    method PutRows(items: seq<Item>, fate: Fate) returns (outcome: Outcome)
      requires Valid()
      modifies this
      ensures Valid()
      ensures outcome == RowsOutcome(old(Image()), items, fate, powers, hash)
      ensures outcome.Stored? ==>
                && Image() == StageAll(old(Image()), items, powers, hash).disk
                && BatchStored(old(Image()), Image(), items, powers, hash)
      ensures outcome.Rejected? ==> NothingStored(old(Image()), Image(), powers, hash)
      ensures outcome.Crashed? ==>
                && Grows(old(Image()), Image()) && CutShort(old(Image()), Image(), items, fate, powers, hash)
      ensures CapsulesFrom(old(capsules), capsules, items)
    {
      hide Lawful, Progress, BatchStored, NothingStored, Grows, BatchFits, InStep, RowsOutcome, CutShort, StageAll;
      ghost var start := Image();
      var batch, halted := StageRows(items, fate);
      if halted.Some? {
        assert Halted(start, items, fate, halted.value);
        return halted.value;
      }
      ghost var disk := Image();
      ProgressFits(start, disk, batch, items, |items|, powers, hash);
      ProgressIsStored(start, disk, batch, items, powers, hash);
      PublishEverything(disk, batch, powers, hash);
      EndsInStep(start, disk, batch, items, fate, powers, hash);
      var landed := if fate.CrashWhileCommitting? then fate.landed else EverySlot(batch);
      var counted := if fate.CrashWhileCommitting? then fate.counted else EveryLevel(batch);
      PublishedDiskIsLawful(start, disk, batch, items, |items|, landed, counted, powers, hash);
      if fate.CrashWhileCommitting? { CutWhilePublishing(start, disk, batch, items, fate, powers, hash); }
      Commit(batch, landed, counted);
      outcome := if fate.CrashWhileCommitting? then Crashed else Stored;
    }

    /** `_put_many_chunk`. */
    method PutChunk(records: seq<Record>, fate: Fate) returns (outcome: Outcome)
      requires Valid()
      modifies this
      ensures Valid()
      ensures !Consistent(SourceItems(records)) ==> outcome == Rejected(LineageSplit) && Image() == old(Image())
      ensures Consistent(SourceItems(records)) ==>
                outcome == RowsOutcome(old(Image()), RowsOf(records), fate, powers, hash)
      ensures outcome.Stored? ==>
                && Image() == StageAll(old(Image()), RowsOf(records), powers, hash).disk
                && BatchStored(old(Image()), Image(), RowsOf(records), powers, hash)
      ensures outcome.Rejected? ==> NothingStored(old(Image()), Image(), powers, hash)
      ensures outcome.Crashed? ==>
                && Grows(old(Image()), Image()) && CutShort(old(Image()), Image(), RowsOf(records), fate, powers, hash)
      ensures CapsulesFrom(old(capsules), capsules, RowsOf(records))
    {
      hide Lawful, BatchStored, Grows, NothingStored, RowsOutcome, CutShort, StageAll;
      var conflict := FirstConflict(SourceItems(records));
      if conflict.Some? {
        RejectedAtOnce(Image(), powers, hash);
        return Rejected(LineageSplit);
      }
      var sources := DistinctRows(SourceItems(records));
      outcome := PutRows(ExactItems(records) + sources, fate);
    }

    lemma ValidMeans()
      requires Valid()
      ensures Configured() && writeBatchLimit >= 1 && Usable(powers) && Lawful(Image(), powers, hash)
      ensures Image() == Disk(chains, capsules)
      ensures forall items :: CapsulesFrom(capsules, capsules, items)
    {
      hide Lawful;
    }

    /**
     `put_many`: conflicts inside the call are refused before anything is written; the records then go to
     disk in chunks of at most `writeBatchLimit`. `fates` is the environment's choice for each chunk.
     */
    method PutMany(records: seq<Record>, fates: nat -> Fate) returns (outcome: Outcome)
      requires Valid()
      modifies this
      ensures Valid() && Grows(old(Image()), Image())
      ensures CapsulesFrom(old(capsules), capsules, AllItems(records))
      ensures ManyDone(old(Image()), records, fates, outcome, Image(), writeBatchLimit, powers, hash)
      ensures outcome.Stored? ==> RecordsStored(old(Image()), Image(), AllItems(records), powers, hash)
    {
      hide Lawful, BatchStored, RecordsStored, NothingStored, Grows, ManyOutcome, RowsOutcome, StoreAll, StageAll,
           CutShort, Batches, RowsOf, BrokenOffAt, RejectedAt, Consistent, ManyDone, CapsulesFrom, AllItems, CheckOrder,
           SourceItems, Valid;
      ghost var start := Image();
      ValidMeans();
      NothingChanged(start);
      var conflict := FirstConflict(CheckOrder(records));
      if conflict.Some? {
        outcome := Rejected(Conflict(CheckOrder(records)[conflict.value].id));
        ClashIntro(start, records, fates, conflict.value, writeBatchLimit, powers, hash);
        return;
      }
      StoredNothingYet(start, powers, hash);
      NothingPutYet(start, fates, powers, hash);
      ghost var batches := Batches(records, writeBatchLimit);
      ghost var done: seq<seq<Item>> := [];
      assert records[0..] == records && records[..0] == [];
      var at, turn := 0, 0;
      while at < |records|
        invariant 0 <= at <= |records| && Valid() && |done| == turn
        invariant batches == done + Batches(records[at..], writeBatchLimit)
        invariant StoreAll(start, done, powers, hash) == Takes(Image())
        invariant ManyOutcome(start, done, fates, powers, hash) == Stored
        invariant RecordsStored(start, Image(), AllItems(records[..at]), powers, hash)
        invariant Grows(start, Image()) && CapsulesFrom(start.capsules, capsules, AllItems(records))
      {
        var next := if at + writeBatchLimit <= |records| then at + writeBatchLimit else |records|;
        ghost var before, rows := Image(), RowsOf(records[at..next]);
        CutNext(records, at, next, writeBatchLimit);
        NextOf(batches, done, rows, Batches(records[next..], writeBatchLimit));
        ChunkIsConsistent(records, at, next);
        NextChunk(start, batches, turn, fates, powers, hash);
        outcome := PutChunk(records[at..next], fates(turn));
        ChunkItems(records, at, next);
        RowsHaveAll(records[at..next]);
        AfterChunk(start, before, Image(), rows, AllItems(records[at..next]), AllItems(records), outcome, powers, hash);
        if !outcome.Stored? {
          OutcomeStays(start, batches, turn + 1, |batches|, fates, powers, hash);
          EndsCall(start, before, Image(), batches, fates, turn, outcome, powers, hash);
          ManyIntro(start, records, fates, outcome, Image(), writeBatchLimit, powers, hash);
          return;
        }
        StoredIsKept(before, rows, fates(turn), powers, hash);
        ChunksCompose(start, before, Image(), AllItems(records[..at]), rows, AllItems(records[at..next]),
                      AllItems(records[..next]), powers, hash);
        at, turn, done := next, turn + 1, done + [rows];
      }
      assert records[..at] == records && records[at..] == [];
      NoBatches(writeBatchLimit);
      assert done + [] == done;
      outcome := Stored;
      ManyIntro(start, records, fates, outcome, Image(), writeBatchLimit, powers, hash);
    }

    /** `put_source`: capsule, slot, level state, each durable before the next; a crash may fall between them. */
    method PutSource(source: string, shard: string, fate: SourceFate) returns (outcome: SourceOutcome)
      requires Valid()
      modifies this
      ensures Valid() && Grows(old(Image()), Image())
      ensures CapsulesFrom(old(capsules), capsules, [SourceItem(source, shard)])
      ensures SourceDone(old(Image()), SourceItem(source, shard), fate, outcome, Image(), powers, hash)
      ensures outcome in {Added, AlreadyThere} ==>
                Answered(Image(), powers, hash, SourceId(source)) == Bound(Lineage(shard))
      ensures outcome.Added? && CleanDisk(old(Image()), powers) ==>
                && CleanDisk(Image(), powers)
                && OthersKept(old(Image()), Image(), hash(SourceId(source)).value, Sources, powers, hash)
      ensures outcome.Refused? || outcome.AlreadyThere? ==>
                NothingStored(old(Image()), Image(), powers, hash) && capsules == old(capsules)
    {
      hide Lawful, LawfulChain, Grows, CapsulesFrom, SourceDone, PlaceOne, SelectionFits, IsRoute, NoPlace, Walk,
           Resealed, Clean, CleanDisk, NothingStored, SealsOnly, Lookup, Valid, OthersKept, Seek, Answered;
      ValidMeans();
      ghost var start := Image();
      NothingChanged(start);
      var item := SourceItem(source, shard);
      var hashed := hash(item.id);
      if hashed.None? {
        RejectedAtOnce(start, powers, hash);
        SourceUnkeyed(start, item, fate, powers, hash);
        return Refused(InvalidIdentity);
      }
      var key := hashed.value;
      var mid, selection := WalkSource(item, key);
      RouteSelected(start, item, key, mid, selection, powers, hash);
      if selection.NoRoom? {
        SourceRefused(start, item, key, selection, fate, Refused(CapacityExceeded), Image(), powers, hash);
        return Refused(CapacityExceeded);
      }
      var level, slot := selection.level, selection.slot;
      if selection.Existing? {
        ExistingStored(start, mid, key, selection, NameOf(Sources, key), Image(), powers, hash);
        outcome := Compared(capsules[mid[level].slots[slot].payload].item, item);
        SourceRefused(start, item, key, selection, fate, outcome, Image(), powers, hash);
        SourceAnswers(start, item, fate, outcome, Image(), powers, hash);
        return;
      }
      outcome := PublishSource(start, mid, item, key, level, slot, fate);
      ValidMeans();
      SourcePlaced(start, item, key, selection, mid, fate, outcome, Image(), powers, hash);
      SourceAnswers(start, item, fate, outcome, Image(), powers, hash);
    }

    /** The level walk of `put_source`; only seals and new levels reach the disk. */
    method WalkSource(ghost item: Item, key: Key) returns (mid: Chain<int>, selection: Selection)
      requires Valid() && hash(item.id) == Some(key) && item.id.SourceId?
      modifies this`chains
      ensures Valid() && Grows(old(Image()), Image()) && SealsOnly(old(Image()), Image())
      ensures NothingStored(old(Image()), Image(), powers, hash)
      ensures chains == old(chains)[NameOf(Sources, key) := mid]
      ensures SelectionFits(ChainAt(old(chains), NameOf(Sources, key)), mid, key, selection, powers)
      ensures IsRoute(ChainAt(old(chains), NameOf(Sources, key)), mid, powers, key, selection)
      ensures LawfulChain(mid, NameOf(Sources, key), capsules, powers, hash)
      ensures selection.Open? ==> selection.level < |mid| && !mid[selection.level].sealed
      ensures CleanDisk(old(Image()), powers) ==> Clean(mid, powers)
    {
      hide Lawful, LawfulChain, Grows, SelectionFits, IsRoute, NoPlace, Walk, Resealed, Clean, CleanDisk, NothingStored,
           SealsOnly, Valid;
      ValidMeans();
      ghost var start := Image();
      var name := NameOf(Sources, key);
      ChainIsLawful(start, name, powers, hash);
      mid, selection := SelectStored(ChainAt(chains, name), key, name, capsules, powers, hash);
      RouteSelected(start, item, key, mid, selection, powers, hash);
      chains := chains[name := mid];
      WalkedDisk(start, mid, name, powers, hash);
      WalkedIsValid(start, Image());
    }

    lemma WalkedIsValid(start: Disk, image: Disk)
      requires Configured() && NothingStored(start, image, powers, hash) && image == Image()
      ensures Valid() && Grows(start, Image()) && SealsOnly(start, Image()) && Lawful(start, powers, hash)
    {
      hide Lawful, SealsOnly, Grows;
      SealsOnlyGrows(start, image);
    }

    /** The part of `put_source` after the walk found a free slot. */
    method PublishSource(ghost start: Disk, mid: Chain<int>, item: Item, key: Key, level: nat, slot: nat,
        fate: SourceFate)
      returns (outcome: SourceOutcome)
      requires Valid() && hash(item.id) == Some(key) && item.id.SourceId?
      requires Lawful(start, powers, hash) && capsules == start.capsules
      requires var name := NameOf(Sources, key);
               && SelectionFits(ChainAt(start.chains, name), mid, key, Open(level, slot), powers)
               && LawfulChain(mid, name, capsules, powers, hash) && !mid[level].sealed
               && chains == start.chains[name := mid]
               && SealsOnly(start, Image())
      requires CleanDisk(start, powers) ==> Clean(mid, powers)
      modifies this
      ensures Valid() && Grows(start, Image()) && CapsulesFrom(start.capsules, capsules, [item])
      ensures outcome == if fate.Undisturbed? then Added else Interrupted
      ensures outcome.Added? ==>
                && level < |mid| <= |powers| && slot < |mid[level].slots|
                && Image() == Disk(start.chains[NameOf(Sources, key) :=
                                     WithSlot(Counted(mid, level, true, powers), level, slot,
                                              Used(key, |start.capsules|))],
                                   start.capsules + [Whole(item)])
      ensures outcome.Added? && CleanDisk(start, powers) ==>
                CleanDisk(Image(), powers) && OthersKept(start, Image(), key, Sources, powers, hash)
    {
      hide LawfulChain, Grows, CleanDisk, Clean, OthersKept, Lookup, Routed, Resealed, Passes, ProbeFrom;
      var name := NameOf(Sources, key);
      var offset := |capsules|;
      if fate.StopsAfterCapsule? {
        ghost var disk := Image();
        var tail := [if fate.torn then Torn else Whole(item)];
        capsules := capsules + tail;
        LostTailIsNothing(start, disk, tail, powers, hash);
        SealsOnlyGrows(start, Image());
        return Interrupted;
      }
      var counted := fate.Undisturbed?;
      capsules := capsules + [Whole(item)];
      chains := chains[name := WithSlot(Counted(mid, level, counted, powers), level, slot, Used(key, offset))];
      SourceInserted(start, Image(), mid, level, slot, key, item, counted, powers, hash);
      outcome := if counted then Added else Interrupted;
    }

    // ----- whole runs -----

    /**
     Any calls, each with any fate: every call is answered as it must be from the disk it found, what the calls that
     were done gave is bound at the end, every answer was given by one of them, and none is taken back.
     */
    method Serve(calls: seq<Call>) returns (replies: seq<Reply>, ghost disks: seq<Disk>)
      requires Valid() && Image() == Disk(map[], [])
      modifies this
      ensures Valid() && |replies| == |calls| && |disks| == |calls| + 1
      ensures disks[0] == old(Image()) && disks[|calls|] == Image()
      ensures forall k :: 0 <= k < |calls| ==>
                Replied(disks[k], calls[k], replies[k], disks[k + 1], writeBatchLimit, powers, hash)
      ensures forall k :: 0 <= k < |calls| && replies[k].Done() ==>
                BoundBy(Image(), calls[k], writeBatchLimit, powers, hash)
      ensures forall i :: 0 <= i < |disks| ==> Lawful(disks[i], powers, hash)
      ensures forall id, binding :: Answered(Image(), powers, hash, id) == Bound(binding) ==>
                exists k :: 0 <= k < |calls| && Item(id, binding) in GivenBy(calls[k])
      ensures forall i, id :: 0 <= i < |disks| && Answered(disks[i], powers, hash, id) != Absent ==>
                Answered(Image(), powers, hash, id) == Answered(disks[i], powers, hash, id)
    {
      hide Lawful, Grows, CapsulesFrom, NothingStored, IsCrashingRun, Answered, RecordsStored, AllItems, OthersKept,
           CleanDisk, ManyDone, SourceDone, Replied, BoundBy;
      disks, replies := [Image()], [];
      ghost var given: seq<seq<Item>> := [];
      EmptyRun(powers, hash);
      for c := 0 to |calls|
        invariant Valid() && |disks| == c + 1 == |given| + 1 && |replies| == c && disks[c] == Image()
        invariant disks[0] == old(Image())
        invariant IsCrashingRun(disks, given, powers, hash) && forall k :: 0 <= k < c ==> given[k] == GivenBy(calls[k])
        invariant forall k :: 0 <= k < c ==>
                    Replied(disks[k], calls[k], replies[k], disks[k + 1], writeBatchLimit, powers, hash)
      {
        ghost var before := Image();
        var reply := Answer(calls[c]);
        CrashingRunStep(disks, given, Image(), GivenBy(calls[c]), powers, hash);
        disks, given, replies := disks + [Image()], given + [GivenBy(calls[c])], replies + [reply];
      }
      RunIsLawful(disks, given, powers, hash);
      forall k | 0 <= k < |calls| && replies[k].Done()
        ensures BoundBy(Image(), calls[k], writeBatchLimit, powers, hash)
      {
        DoneIsBound(disks[k], calls[k], replies[k], disks[k + 1], writeBatchLimit, powers, hash);
        RunGrows(disks, given, k + 1, |calls|, powers, hash);
        BoundStays(disks[k + 1], Image(), calls[k], writeBatchLimit, powers, hash);
      }
      forall id, binding | Answered(Image(), powers, hash, id) == Bound(binding)
        ensures exists k :: 0 <= k < |calls| && Item(id, binding) in GivenBy(calls[k])
      {
        var k := AnswersWereGiven(disks, given, |calls|, id, binding, powers, hash);
        assert Item(id, binding) in GivenBy(calls[k]);
      }
      forall i, id | 0 <= i < |disks| && Answered(disks[i], powers, hash, id) != Absent
        ensures Answered(Image(), powers, hash, id) == Answered(disks[i], powers, hash, id)
      {
        AnswersForGood(disks, given, i, |calls|, powers, hash, id);
      }
    }

    method Answer(call: Call) returns (reply: Reply)
      requires Valid()
      modifies this
      ensures Valid() && Grows(old(Image()), Image()) && CapsulesFrom(old(capsules), capsules, GivenBy(call))
      ensures Replied(old(Image()), call, reply, Image(), writeBatchLimit, powers, hash)
    {
      hide Lawful, Grows, CapsulesFrom, NothingStored, Answered, RecordsStored, AllItems, OthersKept, CleanDisk,
           ManyDone,
           SourceDone;
      match call {
        case Many(records, fates) =>
          var outcome := PutMany(records, fates);
          reply := OfMany(outcome);
        case Single(source, shard, fate) =>
          var outcome := PutSource(source, shard, fate);
          reply := OfSource(outcome);
      }
    }

    /**
     Calls that no crash interrupts: each is answered as it must be, and the directory is the write-once map of what
     they wrote, in order, and nothing else. A stored call writes all its chunks, a refused one the chunks before the
     refused one.
     */
    method ServeCalmly(calls: seq<Call>)
      returns (replies: seq<Reply>, ghost disks: seq<Disk>, ghost written: seq<seq<Item>>)
      requires Valid() && Image() == Disk(map[], [])
      modifies this
      ensures Valid() && |replies| == |calls| == |written| && |disks| == |calls| + 1
      ensures disks[0] == old(Image()) && disks[|calls|] == Image()
      ensures forall k :: 0 <= k < |calls| ==>
                && Replied(disks[k], Calm(calls[k]), replies[k], disks[k + 1], writeBatchLimit, powers, hash)
                && written[k] == WrittenBy(disks[k], calls[k], replies[k], writeBatchLimit, powers, hash)
      ensures forall space, key: Key ::
                Lookup(Image(), powers, hash, space, key) == FirstItem(Joined(written), SeenKey(space, key), hash)
    {
      hide Lawful, Grows, CapsulesFrom, NothingStored, Answered, AllItems, OthersKept, CleanDisk, ManyDone, SourceDone,
           Replied, Lookup, WrittenBy, FirstItem, Writes, Joined;
      disks, replies, written := [Image()], [], [];
      EmptyDisk(powers, hash);
      NothingWritten(hash);
      for c := 0 to |calls|
        invariant Valid() && CleanDisk(Image(), powers)
        invariant |disks| == c + 1 == |replies| + 1 == |written| + 1 && disks[0] == old(Image()) && disks[c] == Image()
        invariant forall k :: 0 <= k <= c ==> Lawful(disks[k], powers, hash)
        invariant forall k :: 0 <= k < c ==>
                    && Replied(disks[k], Calm(calls[k]), replies[k], disks[k + 1], writeBatchLimit, powers, hash)
                    && written[k] == WrittenBy(disks[k], calls[k], replies[k], writeBatchLimit, powers, hash)
        invariant forall space, key: Key ::
                    Lookup(Image(), powers, hash, space, key) == FirstItem(Joined(written), SeenKey(space, key), hash)
      {
        ghost var before := Image();
        var reply := Answer(Calm(calls[c]));
        ghost var mine := WrittenBy(before, calls[c], reply, writeBatchLimit, powers, hash);
        CallWrites(before, calls[c], reply, Image(), writeBatchLimit, powers, hash);
        MoreWritten(before, Image(), written, mine, powers, hash);
        disks, replies, written := disks + [Image()], replies + [reply], written + [mine];
      }
    }

    /** A call put again after each crash, and at last without one. */
    method PutUntilDone(records: seq<Record>, attempts: seq<nat -> Fate>) returns (outcome: Outcome)
      requires Valid()
      modifies this
      ensures Valid() && Grows(old(Image()), Image()) && !outcome.Crashed?
      ensures outcome.Stored? ==> AllBound(Image(), AllItems(records), powers, hash)
      ensures Consistent(CheckOrder(records)) && Agrees(old(Image()), AllItems(records), hash) ==>
                && outcome in {Stored, Rejected(CapacityExceeded)}
                && (HasRoomFor(old(Image()), AllItems(records), |attempts| + 1, powers, hash) ==> outcome.Stored?)
    {
      hide Lawful, Grows, CapsulesFrom, RecordsStored, AllItems, CleanDisk, ManyDone, HasRoomFor, Agrees, Consistent,
           Valid, AllBound, CostsUpTo;
      ghost var start := Image();
      ValidMeans();
      NothingChanged(start);
      NoTriesYet(start, AllItems(records), powers, hash);
      for i := 0 to |attempts|
        invariant Valid() && Lawful(Image(), powers, hash) && Grows(start, Image())
        invariant Consistent(CheckOrder(records)) && Agrees(start, AllItems(records), hash) ==>
                    && Agrees(Image(), AllItems(records), hash)
                    && CostsUpTo(start, Image(), AllItems(records), i, powers, hash)
      {
        ghost var before := Image();
        outcome := PutMany(records, attempts[i]);
        ValidMeans();
        GrowsTransitive(start, before, Image());
        if Consistent(CheckOrder(records)) && Agrees(start, AllItems(records), hash) {
          TryEnds(start, before, records, attempts[i], outcome, Image(), i, |attempts| + 1, writeBatchLimit, powers,
            hash);
        }
        if !outcome.Crashed? {
          if outcome.Stored? { StoredIsBound(before, Image(), AllItems(records), powers, hash); }
          return;
        }
      }
      ghost var before := Image();
      outcome := PutMany(records, CALM);
      ValidMeans();
      GrowsTransitive(start, before, Image());
      CalmIsNoCrash(before, records, CALM, outcome, Image(), writeBatchLimit, powers, hash);
      if outcome.Stored? { StoredIsBound(before, Image(), AllItems(records), powers, hash); }
      if Consistent(CheckOrder(records)) && Agrees(start, AllItems(records), hash) {
        TryEnds(start, before, records, CALM, outcome, Image(), |attempts|, |attempts| + 1, writeBatchLimit, powers,
          hash);
      }
    }
  }

  const ONLY_RECORD := Record("a", "s", 0, [])

  const ONLY_ITEM := Item(AddressId("a"), Row("s", 0))

  lemma OnlyBatch()
    ensures AllItems([ONLY_RECORD]) == [ONLY_ITEM] && Batches([ONLY_RECORD], 1) == [[ONLY_ITEM]]
    ensures Consistent(CheckOrder([ONLY_RECORD]))
  {
    var records := [ONLY_RECORD];
    assert records[..0] == [] && records[..1] == records && records[1..] == [];
    assert ExactItems(records) == [ONLY_ITEM];
    assert RoutesOf(ONLY_RECORD) == [];
    assert SourceItems(records) == [];
    assert CheckOrder(records) == [ONLY_ITEM];
  }

  /** An empty directory of one level of two slots takes one key of each prefix, and the record is that key. */
  lemma OnlyRoom(keyOf: Hash, name: ChainName)
    requires keyOf(AddressId("a")) == Some(Low(1))
    ensures Lawful(Disk(map[], []), [1], keyOf) && Usable([1])
    ensures RoomFor(Disk(map[], []), name, [1]) == 1
    ensures |Missing(Disk(map[], []), [ONLY_ITEM], name, [1], keyOf)| <= 1
    ensures Agrees(Disk(map[], []), [ONLY_ITEM], keyOf)
    ensures name == NameOf(Memories, Low(1)) ==>
              && Low(1) in Missing(Disk(map[], []), [ONLY_ITEM], name, [1], keyOf)
              && |Slotless(Disk(map[], []), [ONLY_ITEM], name, keyOf)| == 1
  {
    hide Low;
    var start, items := Disk(map[], []), [ONLY_ITEM];
    EmptyDisk([1], keyOf);
    assert Pow2(0) == 1 && Pow2(1) == 2 && Threshold(1) == 1;
    assert Room<int>([], [1], 0) == 0;
    forall key | key in KeysOf(items, name, keyOf) ensures key in {Low(1)} {
      var j := ChainOfKey(items, name, key, keyOf);
    }
    SubsetSize(Missing(start, items, name, [1], keyOf), {Low(1)});
    if name == NameOf(Memories, Low(1)) {
      KeyIn(items, 0, name, keyOf);
      assert Slotless(start, items, name, keyOf) == {Low(1)};
    }
  }

  /** What the first put leaves, and what the second makes of it. */
  lemma LostForGood(start: Disk, image: Disk, first: Outcome, again: Outcome, after: Disk, keyOf: Hash)
    requires keyOf(AddressId("a")) == Some(Low(1)) && start == Disk(map[], [])
    requires ManyDone(start, [ONLY_RECORD], CUT_BEFORE_SLOTS, first, image, 1, [1], keyOf)
    requires ManyDone(image, [ONLY_RECORD], CALM, again, after, 1, [1], keyOf)
    requires Lawful(image, [1], keyOf) && Grows(start, image)
    ensures first == Crashed && again == Rejected(CapacityExceeded)
  {
    hide Lawful, Grows, StageAll, Missing, Slotless, RoomFor, Agrees, Low, CheckOrder, Consistent, AllItems, Batches,
         RejectedAt, CrashOf;
    var items, name := [ONLY_ITEM], NameOf(Memories, Low(1));
    OnlyBatch();
    forall n ensures |Missing(start, items, n, [1], keyOf)| <= RoomFor(start, n, [1]) { OnlyRoom(keyOf, n); }
    OnlyRoom(keyOf, name);
    OneBatch(start, items, [1], keyOf);
    CallSuffices(start, [items], items, [1], keyOf);
    OneOutcome(start, items, CUT_BEFORE_SLOTS, [1], keyOf);
    var k: nat :| BrokenOffAt(start, image, [items], CUT_BEFORE_SLOTS, k, [1], keyOf);
    var batches: seq<seq<Item>> := [items];
    assert items[..1] == items && batches[..0] == [];
    CrashTakesNoMore(start, image, [items], k, 1, {}, items, [1], keyOf);
    SlackStays(start, items, items, name, [1], keyOf);
    NothingMissing(start, items, name, [1], keyOf);
    EmptyDisk([1], keyOf);
    LastRoomIsLost(start, items, image, name, Low(1), [1], keyOf);
    OneBatch(image, items, [1], keyOf);
    CallSuffices(image, [items], items, [1], keyOf);
    CalmOutcome(image, [items], CALM, [1], keyOf);
  }

  lemma OneBatch(start: Disk, items: seq<Item>, powers: seq<nat>, hash: Hash)
    requires Lawful(start, powers, hash) && Usable(powers)
    ensures StoreAll(start, [items], powers, hash)
         == match StageAll(start, items, powers, hash) case Kept(now, _) => Takes(now) case Fails(e) => Refuses(e)
  {
    hide Lawful, StageAll;
    var batches: seq<seq<Item>> := [items];
    assert batches[..0] == [];
  }

  lemma OneOutcome(start: Disk, items: seq<Item>, fates: nat -> Fate, powers: seq<nat>, hash: Hash)
    requires Lawful(start, powers, hash) && Usable(powers)
    ensures ManyOutcome(start, [items], fates, powers, hash) == RowsOutcome(start, items, fates(0), powers, hash)
  {
    hide Lawful, StageAll, RowsOutcome;
    var batches: seq<seq<Item>> := [items];
    assert batches[..0] == [];
  }

  /**
   The input for which putting again fails: a directory of one level that one record fills. The crash comes after the
   level was closed and before the record's slot landed; the record is refused from then on.
   */
  method LastLevelIsLost(keyOf: Hash) returns (first: Outcome, again: Outcome)
    requires keyOf(AddressId("a")) == Some(Low(1))
    ensures first == Crashed && again == Rejected(CapacityExceeded)
  {
    hide Lawful, ManyDone, CleanDisk, RecordsStored, CapsulesFrom, Grows, Answered, Low;
    assert Usable([1]);
    var store := new ExactReplayStore([1], keyOf, 1);
    var records := [ONLY_RECORD];
    ghost var start := store.Image();
    first := store.PutMany(records, CUT_BEFORE_SLOTS);
    ghost var image := store.Image();
    again := store.PutMany(records, CALM);
    LostForGood(start, image, first, again, store.Image(), keyOf);
  }
}
