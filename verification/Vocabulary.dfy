/**
 The cue vocabulary of `compact_index.py`: strings packed in newline-joined blocks, found again through a sorted
 table of 64-bit hashes, and read without a lock while one writer appends.
 */
module Vocabulary {
  import opened Wrappers

  const BLOCK: nat := 128

  // ----- blocks -----

  /** `'\n'.join(strings)`. */
  function Join(strings: seq<string>): string
    requires strings != []
  {
    if |strings| == 1 then strings[0] else strings[0] + "\n" + Join(strings[1..])
  }

  /** `text.split('\n')`. */
  function Split(text: string): (parts: seq<string>)
    ensures parts != []
  {
    if text == "" then [""]
    else
      var rest := Split(text[1..]);
      if text[0] == '\n' then [""] + rest else [[text[0]] + rest[0]] + rest[1..]
  }

  predicate Plain(s: string) { '\n' !in s }

  lemma {:induction false} SplitPlain(s: string)
    requires Plain(s)
    ensures Split(s) == [s]
  {
    if s != "" {
      SplitPlain(s[1..]);
      assert s == [s[0]] + s[1..];
    }
  }

  lemma {:induction false} SplitAtNewline(s: string, rest: string)
    requires Plain(s)
    ensures Split(s + "\n" + rest) == [s] + Split(rest)
  {
    var text := s + "\n" + rest;
    if s == "" {
      assert text[1..] == rest;
    } else {
      SplitAtNewline(s[1..], rest);
      assert text[1..] == s[1..] + "\n" + rest;
      assert ([s[1..]] + Split(rest))[1..] == Split(rest);
      assert s == [s[0]] + s[1..];
    }
  }

  /** A block of newline-free cues decodes to the cues it was built from. */
  lemma {:induction false} SplitJoin(strings: seq<string>)
    requires strings != [] && forall i :: 0 <= i < |strings| ==> Plain(strings[i])
    ensures Split(Join(strings)) == strings
  {
    if |strings| == 1 {
      SplitPlain(strings[0]);
    } else {
      SplitJoin(strings[1..]);
      SplitAtNewline(strings[0], Join(strings[1..]));
    }
  }

  /** All strings in the order of their ids: the decoded blocks, then the tail. */
  function Decoded(blocks: seq<string>): seq<string> {
    if blocks == [] then [] else Decoded(blocks[..|blocks| - 1]) + Split(blocks[|blocks| - 1])
  }

  ghost predicate FullBlocks(blocks: seq<string>) { forall k :: 0 <= k < |blocks| ==> |Split(blocks[k])| == BLOCK }

  lemma {:induction false} DecodedAt(blocks: seq<string>, id: nat)
    requires FullBlocks(blocks)
    ensures |Decoded(blocks)| == |blocks| * BLOCK
    ensures id < |blocks| * BLOCK ==>
              id / BLOCK < |blocks| && Decoded(blocks)[id] == Split(blocks[id / BLOCK])[id % BLOCK]
  {
    hide Split;
    if blocks != [] {
      var init := blocks[..|blocks| - 1];
      DecodedAt(init, id);
      BlockOf(id, |init|);
    }
  }

  lemma BlockOf(id: nat, blocks: nat)
    ensures id < blocks * BLOCK ==> id / BLOCK < blocks
    ensures blocks * BLOCK <= id < (blocks + 1) * BLOCK ==> id / BLOCK == blocks && id % BLOCK == id - blocks * BLOCK
  {
  }

  lemma DecodedLength(blocks: seq<string>)
    requires FullBlocks(blocks)
    ensures |Decoded(blocks)| == |blocks| * BLOCK
  {
    DecodedAt(blocks, 0);
  }

  // ----- the hash table -----

  datatype Entry = Entry(hash: nat, id: nat)

  ghost predicate Sorted(table: seq<Entry>) { forall i, j :: 0 <= i < j < |table| ==> table[i].hash <= table[j].hash }

  /** `np.argsort(hashes, kind='stable')`: after all entries of the same hash. */
  function Insert(table: seq<Entry>, e: Entry): (more: seq<Entry>)
    ensures forall x :: x in more <==> x in table || x == e
    ensures Sorted(table) ==> Sorted(more)
  {
    if table == [] then [e]
    else if e.hash < table[0].hash then [e] + table
    else
      var rest := Insert(table[1..], e);
      assert Sorted(table) ==> Sorted([table[0]] + rest) by {
        if Sorted(table) {
          forall j | 0 <= j < |rest| ensures table[0].hash <= rest[j].hash { assert rest[j] in rest; }
        }
      }
      [table[0]] + rest
  }

  function SortStable(entries: seq<Entry>): (table: seq<Entry>)
    ensures Sorted(table) && forall x :: x in table <==> x in entries
  {
    if entries == [] then [] else Insert(SortStable(entries[..|entries| - 1]), entries[|entries| - 1])
  }

  ghost predicate Indexes(table: seq<Entry>, strings: seq<string>, hash: string -> nat) {
    && Sorted(table)
    && (forall k :: 0 <= k < |table| ==> table[k].id < |strings| && table[k].hash == hash(strings[table[k].id]))
    && (forall i :: 0 <= i < |strings| ==> Entry(hash(strings[i]), i) in table)
  }

  ghost predicate Distinct(strings: seq<string>) { forall i, j :: 0 <= i < j < |strings| ==> strings[i] != strings[j] }

  /** `np.searchsorted`, on either side of equal hashes. */
  method SearchSorted(table: seq<Entry>, h: nat, right: bool) returns (k: nat)
    requires Sorted(table)
    ensures k <= |table|
    ensures forall i :: 0 <= i < k ==> table[i].hash < h || (right && table[i].hash == h)
    ensures forall i :: k <= i < |table| ==> table[i].hash > h || (!right && table[i].hash == h)
  {
    k := 0;
    var high := |table|;
    while k < high
      invariant k <= high <= |table|
      invariant forall i :: 0 <= i < k ==> table[i].hash < h || (right && table[i].hash == h)
      invariant forall i :: high <= i < |table| ==> table[i].hash > h || (!right && table[i].hash == h)
    {
      var mid := (k + high) / 2;
      if table[mid].hash < h || (right && table[mid].hash == h) { k := mid + 1; } else { high := mid; }
    }
  }

  // ----- the vocabulary -----

  class Vocab {
    const hash: string -> nat
    var blocks: seq<string>
    var tail: seq<string>
    var table: seq<Entry>
    var count: nat

    ghost function Strings(): seq<string> reads this { Decoded(blocks) + tail }

    ghost predicate Valid() reads this {
      && FullBlocks(blocks) && |tail| < BLOCK && count == |blocks| * BLOCK + |tail|
      && (forall i :: 0 <= i < |tail| ==> Plain(tail[i]))
      && Distinct(Strings()) && Indexes(table, Strings(), hash)
    }

    constructor (hash: string -> nat)
      ensures Valid() && Strings() == [] && this.hash == hash
    {
      this.hash, blocks, tail, table, count := hash, [], [], [], 0;
    }

    /** `string_of`. */
    method StringOf(id: nat) returns (text: string)
      requires Valid() && id < |Strings()|
      ensures text == Strings()[id]
    {
      DecodedAt(blocks, id);
      if id / BLOCK >= |blocks| {
        assert id - |blocks| * BLOCK == id % BLOCK;
        text := tail[id % BLOCK];
      } else {
        text := Split(blocks[id / BLOCK])[id % BLOCK];
      }
    }

    /** `id_of`: the string's id below `limit`, whatever other strings share its hash. */
    method IdOf(text: string, limit: Option<nat>) returns (id: Option<nat>)
      requires Valid()
      ensures id.Some? ==>
                id.value < |Strings()| && Strings()[id.value] == text && (limit.Some? ==> id.value < limit.value)
      ensures id == None ==>
                forall i :: 0 <= i < |Strings()| && (limit.Some? ==> i < limit.value) ==> Strings()[i] != text
    {
      var h := hash(text);
      var lo := SearchSorted(table, h, false);
      var hi := SearchSorted(table, h, true);
      id := None;
      ghost var strings := Strings();
      var k := lo;
      while k < hi
        invariant lo <= k <= |table|
                  && forall j :: lo <= j < k ==>
                    (limit.Some? && table[j].id >= limit.value) || strings[table[j].id] != text
        decreases hi - k
      {
        var candidate := table[k].id;
        if limit == None || candidate < limit.value {
          var s := StringOf(candidate);
          if s == text { return Some(candidate); }
        }
        k := k + 1;
      }
      forall i | 0 <= i < |strings| && (limit.Some? ==> i < limit.value) ensures strings[i] != text {
        assert Entry(hash(strings[i]), i) in table;
        var j :| 0 <= j < |table| && table[j] == Entry(hash(strings[i]), i);
        assert lo <= j < hi || table[j].hash != h;
      }
    }

    /** One string at the end; a full tail becomes a block. */
    method Push(text: string)
      requires FullBlocks(blocks) && |tail| < BLOCK && Plain(text) && forall i :: 0 <= i < |tail| ==> Plain(tail[i])
      modifies this`blocks, this`tail
      ensures FullBlocks(blocks) && |tail| < BLOCK && forall i :: 0 <= i < |tail| ==> Plain(tail[i])
      ensures Strings() == old(Strings()) + [text] && |blocks| * BLOCK + |tail| == old(|blocks| * BLOCK + |tail|) + 1
    {
      var more := tail + [text];
      tail := more;
      if |tail| == BLOCK {
        SplitJoin(tail);
        var block := Join(tail);
        assert (blocks + [block])[..|blocks|] == blocks;
        blocks := blocks + [block];
        tail := [];
      }
    }

    method PushAll(texts: seq<string>)
      requires FullBlocks(blocks) && |tail| < BLOCK && forall i :: 0 <= i < |tail| ==> Plain(tail[i])
      requires forall i :: 0 <= i < |texts| ==> Plain(texts[i])
      modifies this`blocks, this`tail
      ensures FullBlocks(blocks) && |tail| < BLOCK && forall i :: 0 <= i < |tail| ==> Plain(tail[i])
      ensures Strings() == old(Strings()) + texts
              && |blocks| * BLOCK + |tail| == old(|blocks| * BLOCK + |tail|) + |texts|
    {
      hide *;
      ghost var before := Strings();
      assert texts[..0] == [] && before + [] == before;
      for i := 0 to |texts|
        invariant FullBlocks(blocks) && |tail| < BLOCK && forall j :: 0 <= j < |tail| ==> Plain(tail[j])
        invariant Strings() == before + texts[..i] && |blocks| * BLOCK + |tail| == old(|blocks| * BLOCK + |tail|) + i
      {
        Push(texts[i]);
        assert texts[..i + 1] == texts[..i] + [texts[i]];
        assert before + texts[..i] + [texts[i]] == before + (texts[..i] + [texts[i]]);
      }
      assert texts[..|texts|] == texts;
    }

    /** `add`: strings not present yet get the next ids, in order. */
    method Add(texts: seq<string>) returns (ids: seq<nat>)
      requires Valid() && forall i :: 0 <= i < |texts| ==> Plain(texts[i])
      requires Distinct(Strings() + texts)
      modifies this
      ensures Valid() && Strings() == old(Strings()) + texts
      ensures |ids| == |texts| && forall i :: 0 <= i < |texts| ==> ids[i] == old(|Strings()|) + i
    {
      hide FullBlocks, Indexes, Distinct, Decoded, Plain, SortStable;
      ghost var before := Strings();
      DecodedLength(blocks);
      var first := count;
      PushAll(texts);
      count := count + |texts|;
      var entries := seq(|texts|, i requires 0 <= i < |texts| => Entry(hash(texts[i]), first + i));
      AddedIndexes(table, before, texts, entries, hash);
      table := SortStable(table + entries);
      ids := seq(|texts|, i => first + i);
    }
  }

  lemma AddedIndexes(table: seq<Entry>, strings: seq<string>, texts: seq<string>, entries: seq<Entry>,
      hash: string -> nat)
    requires Indexes(table, strings, hash) && |entries| == |texts|
    requires forall i :: 0 <= i < |texts| ==> entries[i] == Entry(hash(texts[i]), |strings| + i)
    ensures Indexes(SortStable(table + entries), strings + texts, hash)
  {
    hide SortStable, Sorted;
    var after, all := SortStable(table + entries), strings + texts;
    forall k | 0 <= k < |after| ensures after[k].id < |all| && after[k].hash == hash(all[after[k].id]) {
      assert after[k] in after && after[k] in table + entries;
      EntryNames(after[k], table, strings, texts, entries, hash);
    }
    forall i | 0 <= i < |all| ensures Entry(hash(all[i]), i) in after {
      EntryOf(i, table, strings, texts, entries, hash);
    }
  }

  lemma EntryNames(x: Entry, table: seq<Entry>, strings: seq<string>, texts: seq<string>, entries: seq<Entry>,
      hash: string -> nat)
    requires Indexes(table, strings, hash) && |entries| == |texts| && x in table + entries
    requires forall i :: 0 <= i < |texts| ==> entries[i] == Entry(hash(texts[i]), |strings| + i)
    ensures x.id < |strings + texts| && x.hash == hash((strings + texts)[x.id])
  {
    hide Sorted;
    if x in table {
      var k :| 0 <= k < |table| && table[k] == x;
    } else {
      var k :| 0 <= k < |entries| && entries[k] == x;
    }
  }

  lemma EntryOf(i: nat, table: seq<Entry>, strings: seq<string>, texts: seq<string>, entries: seq<Entry>,
      hash: string -> nat)
    requires Indexes(table, strings, hash) && |entries| == |texts| && i < |strings + texts|
    requires forall i :: 0 <= i < |texts| ==> entries[i] == Entry(hash(texts[i]), |strings| + i)
    ensures Entry(hash((strings + texts)[i]), i) in table + entries
  {
    hide Sorted;
    if i >= |strings| {
      assert entries[i - |strings|] in entries;
    }
  }

  // ----- reading while the writer appends -----

  /**
   The lists as the interpreter shares them: `lists[k]` is the `k`-th tail object, the last one current; a reader
   keeps a reference to one of them. A flush appends the block, and only then replaces the tail.
   */
  datatype Shared = Shared(lists: seq<seq<string>>, blocks: seq<seq<string>>)

  datatype Write = Append(text: string) | Flush | NewTail

  ghost predicate Ok(s: Shared) {
    && s.lists != [] && |s.lists| - 1 <= |s.blocks| <= |s.lists|
    && (forall k :: 0 <= k < |s.blocks| ==> s.blocks[k] == s.lists[k] && |s.lists[k]| == BLOCK)
    && forall k :: 0 <= k < |s.lists| ==> |s.lists[k]| <= BLOCK
  }

  ghost predicate Writes(s: Shared, w: Write, after: Shared) {
    var last := |s.lists| - 1;
    match w
    case Append(text) => last >= 0 && |s.lists[last]| < BLOCK
      && after == s.(lists := s.lists[last := s.lists[last] + [text]])
    case Flush => last >= 0 && |s.lists[last]| == BLOCK && |s.blocks| == last
      && after == s.(blocks := s.blocks + [s.lists[last]])
    case NewTail => |s.blocks| == |s.lists| && after == s.(lists := s.lists + [[]])
  }

  /** The string of an id once it is there. */
  ghost predicate Holds(s: Shared, id: nat, text: string) {
    id / BLOCK < |s.lists| && id % BLOCK < |s.lists[id / BLOCK]| && s.lists[id / BLOCK][id % BLOCK] == text
  }

  ghost predicate IsRun(states: seq<Shared>, writes: seq<Write>) {
    && |states| == |writes| + 1 && states[0] == Shared([[]], [])
    && forall k :: 0 <= k < |writes| ==> Writes(states[k], writes[k], states[k + 1])
  }

  lemma {:induction false} RunIsOk(states: seq<Shared>, writes: seq<Write>, k: nat)
    requires IsRun(states, writes) && k < |states|
    ensures Ok(states[k])
  {
    if k > 0 {
      RunIsOk(states, writes, k - 1);
      assert Writes(states[k - 1], writes[k - 1], states[k]);
    }
  }

  /** Lists and blocks only grow, and what an id names stays. */
  lemma {:induction false} OnlyGrows(states: seq<Shared>, writes: seq<Write>, i: nat, k: nat, id: nat, text: string)
    requires IsRun(states, writes) && i <= k < |states| && Holds(states[i], id, text)
    ensures Holds(states[k], id, text) && |states[i].lists| <= |states[k].lists|
            && |states[i].blocks| <= |states[k].blocks|
    decreases k
  {
    if i < k {
      OnlyGrows(states, writes, i, k - 1, id, text);
      assert Writes(states[k - 1], writes[k - 1], states[k]);
    }
  }

  /** `_block` then the index: the tail object, the blocks, and the cell, each read at its own moment. */
  ghost function Read(tailAt: Shared, blocksAt: Shared, cellAt: Shared, id: nat): Option<string> {
    var number, tail := id / BLOCK, |tailAt.lists| - 1;
    if number >= |blocksAt.blocks| then
      (if 0 <= tail < |cellAt.lists| && id % BLOCK < |cellAt.lists[tail]| then Some(cellAt.lists[tail][id % BLOCK])
        else None)
    else if number < |cellAt.blocks| && id % BLOCK < |cellAt.blocks[number]|
         then Some(cellAt.blocks[number][id % BLOCK])
    else None
  }

  /**
   Whatever the writer does between the reader's steps: an id that was there before the read began yields its string.
   */
  lemma ReadIsRight(states: seq<Shared>, writes: seq<Write>, start: nat, tailAt: nat, blocksAt: nat, cellAt: nat,
      id: nat, text: string)
    requires IsRun(states, writes) && start <= tailAt <= blocksAt <= cellAt < |states| && Holds(states[start], id, text)
    ensures Read(states[tailAt], states[blocksAt], states[cellAt], id) == Some(text)
  {
    RunIsOk(states, writes, tailAt);
    RunIsOk(states, writes, blocksAt);
    RunIsOk(states, writes, cellAt);
    OnlyGrows(states, writes, start, tailAt, id, text);
    OnlyGrows(states, writes, tailAt, blocksAt, id, text);
    OnlyGrows(states, writes, blocksAt, cellAt, id, text);
  }

  /**
   Read the other way round, blocks before the tail, an id can be lost: in this run the first tail fills up, and a
   flush between the two reads leaves an empty tail.
   */
  lemma OtherOrderFails(full: seq<string>) returns (states: seq<Shared>, writes: seq<Write>)
    requires |full| == BLOCK
    ensures IsRun(states, writes) && |states| == BLOCK + 3 && Holds(states[BLOCK], 0, full[0])
    ensures Read(states[BLOCK + 2], states[BLOCK], states[BLOCK + 2], 0) == None
  {
    hide Read, Holds;
    var filling := seq(BLOCK + 1, k requires 0 <= k <= BLOCK => Shared([full[..k]], []));
    var flushed, after := Shared([full], [full]), Shared([full, []], [full]);
    states := filling + [flushed, after];
    writes := seq(BLOCK, k requires 0 <= k < BLOCK => Append(full[k])) + [Flush, NewTail];
    assert full[..0] == [] && full[..BLOCK] == full;
    forall k | 0 <= k < |writes| ensures Writes(states[k], writes[k], states[k + 1]) {
      if k < BLOCK {
        assert full[..k + 1] == full[..k] + [full[k]];
      } else if k == BLOCK {
        assert states[k] == Shared([full], []) && states[k + 1] == flushed;
      } else {
        assert states[k] == flushed && states[k + 1] == after;
      }
    }
    LostHere(full);
  }

  lemma LostHere(full: seq<string>)
    requires |full| == BLOCK
    ensures Holds(Shared([full], []), 0, full[0])
    ensures Read(Shared([full, []], [full]), Shared([full], []), Shared([full, []], [full]), 0) == None
  {
  }
}
