/**
 The cue directory of `cue_shards.py`: cues are placed in the leveled directory, and each placed cue has a cell of
 two head copies that continues a posting chain. A batch appends cues and posting nodes first and writes slots and
 copies last; a crash lets through any part of those writes.
 */
module CueShards {
  import opened CueHistory
  import opened Wrappers
  import D = Directory
  import P = Placement
  import T = LeveledTable
  import W = LevelWalk

  // ----- the cells -----

  /** The head copies of each slot, by the offset of the slot's cue; a slot has the only reference to it. */
  type Cells = map<int, Heads>

  ghost function CellHistory(postings: seq<Node>, cells: Cells, o: int): seq<Entry> {
    if o in cells then HeadsHistory(postings, cells[o]) else []
  }

  ghost predicate Sound(postings: seq<Node>, cells: Cells) {
    Backward(postings) && forall o :: o in cells ==> Readable(cells[o], postings)
  }

  /** The state a batch holds for a slot it has touched. */
  datatype Pending = Pending(head: nat, count: nat, generation: nat, active: Option<int>, changed: bool, last: string)

  type Held = map<int, Pending>

  /** How the held state relates to the slot on disk. */
  ghost predicate Continues(p: Pending, o: int, cells: Cells) {
    if o in cells then
      match State(cells[o])
      case None => false
      case Some(active) =>
        && p.active == Some(active.index)
        && (if p.changed then p.generation > active.generation
            else p.head == active.head && p.generation == active.generation)
    else p.active == None && p.changed && p.generation >= 1
  }

  ghost predicate HeldFits(p: Pending, o: int, nodes: seq<Node>, cells: Cells) {
    && 0 < p.head <= |nodes| && p.count == |History(nodes, p.head)| && p.last == nodes[p.head - 1].entry.identifier
    && Continues(p, o, cells)
  }

  ghost predicate InBatch(nodes: seq<Node>, held: Held, cells: Cells) {
    Sound(nodes, cells) && forall o :: o in held ==> HeldFits(held[o], o, nodes, cells)
  }

  /** A slot's history as the batch will leave it. */
  ghost function AheadAt(nodes: seq<Node>, held: Held, cells: Cells, o: int): seq<Entry> {
    if o in held then History(nodes, held[o].head) else CellHistory(nodes, cells, o)
  }

  lemma CellsStable(postings: seq<Node>, more: seq<Node>, cells: Cells)
    requires Sound(postings, cells) && Backward(postings + more)
    ensures Sound(postings + more, cells)
    ensures forall o :: CellHistory(postings + more, cells, o) == CellHistory(postings, cells, o)
  {
    forall o | o in cells
      ensures Readable(cells[o], postings + more)
      ensures HeadsHistory(postings + more, cells[o]) == HeadsHistory(postings, cells[o])
    {
      HistoryStable(postings, more, State(cells[o]).value.head);
    }
  }

  lemma HeldStable(p: Pending, o: int, nodes: seq<Node>, node: Node, cells: Cells)
    requires HeldFits(p, o, nodes, cells)
    ensures HeldFits(p, o, nodes + [node], cells) && History(nodes + [node], p.head) == History(nodes, p.head)
  {
    HistoryStable(nodes, [node], p.head);
  }

  /** What one offer to a slot does: at most one new node, which continues the slot's chain; all other chains stay. */
  ghost predicate OfferedAt(nodes: seq<Node>, held: Held, nodes': seq<Node>, held': Held, cells: Cells, o: int,
      entry: Entry)
  {
    && InBatch(nodes', held', cells) && nodes <= nodes' && held'.Keys == held.Keys + {o}
    && AheadAt(nodes', held', cells, o) == Publish(AheadAt(nodes, held, cells, o), entry)
    && forall x :: x != o ==> AheadAt(nodes', held', cells, x) == AheadAt(nodes, held, cells, x)
  }

  /** A node appended to the chain with this head. */
  ghost predicate Appends(p: Pending, nodes: seq<Node>, cells: Cells, o: int, entry: Entry, head: nat) {
    && head <= |nodes| && p.head == |nodes| + 1 && p.count == |History(nodes, head)| + 1
    && p.last == entry.identifier && p.changed && Continues(p, o, cells)
  }

  lemma AppendedFits(nodes: seq<Node>, cells: Cells, o: int, entry: Entry, head: nat, p: Pending)
    requires Appends(p, nodes, cells, o, entry, head)
    ensures HeldFits(p, o, nodes + [Node(head, entry)], cells)
    ensures History(nodes + [Node(head, entry)], p.head) == History(nodes, head) + [entry]
  {
    HistoryStable(nodes, [Node(head, entry)], head);
    assert (nodes + [Node(head, entry)])[|nodes|] == Node(head, entry);
  }

  lemma NodeOffered(nodes: seq<Node>, held: Held, cells: Cells, o: int, entry: Entry, head: nat, p: Pending)
    requires InBatch(nodes, held, cells) && Appends(p, nodes, cells, o, entry, head)
    requires AheadAt(nodes, held, cells, o) == History(nodes, head)
    requires head == 0 || nodes[head - 1].entry.identifier != entry.identifier
    ensures OfferedAt(nodes, held, nodes + [Node(head, entry)], held[o := p], cells, o, entry)
  {
    hide Sound, HeldFits, Appends, History, CellHistory;
    AppendedIsSound(nodes, cells, o, entry, head, p);
    AppendedFits(nodes, cells, o, entry, head, p);
    AppendedPublishes(nodes, head, entry);
    OthersStable(nodes, held, cells, o, Node(head, entry));
  }

  lemma AppendedIsSound(nodes: seq<Node>, cells: Cells, o: int, entry: Entry, head: nat, p: Pending)
    requires Sound(nodes, cells) && Appends(p, nodes, cells, o, entry, head)
    ensures Sound(nodes + [Node(head, entry)], cells) && Backward(nodes) && head <= |nodes|
    ensures forall x :: CellHistory(nodes + [Node(head, entry)], cells, x) == CellHistory(nodes, cells, x)
  {
    hide Readable, CellHistory, Continues, History;
    CellsStable(nodes, [Node(head, entry)], cells);
  }

  lemma AppendedPublishes(nodes: seq<Node>, head: nat, entry: Entry)
    requires Backward(nodes) && head <= |nodes|
    requires head == 0 || nodes[head - 1].entry.identifier != entry.identifier
    ensures Publish(History(nodes, head), entry) == History(nodes, head) + [entry]
  {
    HistoryEnd(nodes, head);
  }

  lemma OthersStable(nodes: seq<Node>, held: Held, cells: Cells, o: int, node: Node)
    requires forall x :: x in held ==> HeldFits(held[x], x, nodes, cells)
    ensures forall x :: x in held && x != o ==>
              && HeldFits(held[x], x, nodes + [node], cells)
              && History(nodes + [node], held[x].head) == History(nodes, held[x].head)
  {
    hide HeldFits;
    forall x | x in held && x != o
      ensures HeldFits(held[x], x, nodes + [node], cells)
      ensures History(nodes + [node], held[x].head) == History(nodes, held[x].head)
    {
      HeldStable(held[x], x, nodes, node, cells);
    }
  }

  /** The slot is taken into the batch; its newest experience is already this one. */
  lemma NothingOffered(nodes: seq<Node>, held: Held, cells: Cells, o: int, entry: Entry, p: Pending)
    requires InBatch(nodes, held, cells) && HeldFits(p, o, nodes, cells) && p.last == entry.identifier
    requires AheadAt(nodes, held, cells, o) == History(nodes, p.head)
    ensures OfferedAt(nodes, held, nodes, held[o := p], cells, o, entry)
  {
    hide Continues, Readable, HeadsHistory;
    HistoryEnd(nodes, p.head);
  }

  predicate Repeats(history: seq<Entry>, entry: Entry) {
    history != [] && history[|history| - 1].identifier == entry.identifier
  }

  /** The state a batch starts from at a slot: what it holds, else what is stored, else nothing. */
  function StateAt(o: int, nodes: seq<Node>, held: Held, cells: Cells): Pending {
    if o in held then held[o]
    else if o in cells && State(cells[o]).Some? && 0 < State(cells[o]).value.head <= |nodes| then
      var stored := State(cells[o]).value;
      Pending(stored.head, stored.count, stored.generation, Some(stored.index), false,
        nodes[stored.head - 1].entry.identifier)
    else Pending(0, 0, 0, None, false, "")
  }

  /** It stands for the slot's chain as the batch will leave it. */
  lemma StateFacts(o: int, nodes: seq<Node>, held: Held, cells: Cells)
    requires InBatch(nodes, held, cells)
    ensures var p := StateAt(o, nodes, held, cells);
            && p.head <= |nodes| && AheadAt(nodes, held, cells, o) == History(nodes, p.head)
            && (p.head > 0 ==> HeldFits(p, o, nodes, cells))
            && (p.head == 0 ==> o !in held && o !in cells && p == Pending(0, 0, 0, None, false, ""))
  {
    if o !in held && o in cells { assert Readable(cells[o], nodes); }
  }

  lemma NewestKnown(nodes: seq<Node>, head: nat, entry: Entry)
    requires Backward(nodes) && head <= |nodes|
    ensures Repeats(History(nodes, head), entry) <==> head > 0 && nodes[head - 1].entry.identifier == entry.identifier
  {
    HistoryEnd(nodes, head);
  }

  lemma NextState(nodes: seq<Node>, held: Held, cells: Cells, o: int, entry: Entry)
    requires InBatch(nodes, held, cells)
    ensures var p := StateAt(o, nodes, held, cells);
            var q := Pending(|nodes| + 1, p.count + 1, p.generation + 1, p.active, true, entry.identifier);
            Appends(q, nodes, cells, o, entry, p.head)
  {
    StateFacts(o, nodes, held, cells);
  }

  /** One offer: skipped when it repeats the newest experience, else a node; an invalid entry is refused. */
  method OfferAt(o: int, entry: Entry, nodes: seq<Node>, held: Held, cells: Cells, valid: Entry -> bool)
    returns (nodes': seq<Node>, held': Held, refused: bool)
    requires InBatch(nodes, held, cells)
    ensures refused <==> !valid(entry) && !Repeats(AheadAt(nodes, held, cells, o), entry)
    ensures !refused ==> OfferedAt(nodes, held, nodes', held', cells, o, entry)
  {
    hide InBatch, AheadAt, Appends, OfferedAt, History, StateAt, Continues, State, Repeats;
    nodes', held', refused := nodes, held, false;
    var p := StateAt(o, nodes, held, cells);
    BatchIsBackward(nodes, held, cells);
    StateFacts(o, nodes, held, cells);
    NewestKnown(nodes, p.head, entry);
    if p.head > 0 && p.last == entry.identifier {
      NothingOffered(nodes, held, cells, o, entry, p);
      held' := held[o := p];
      return;
    }
    if !valid(entry) {
      refused := true;
      return;
    }
    var q := Pending(|nodes| + 1, p.count + 1, p.generation + 1, p.active, true, entry.identifier);
    NextState(nodes, held, cells, o, entry);
    NodeOffered(nodes, held, cells, o, entry, p.head, q);
    nodes' := nodes + [Node(p.head, entry)];
    held' := held[o := q];
  }

  lemma BatchIsBackward(nodes: seq<Node>, held: Held, cells: Cells)
    requires InBatch(nodes, held, cells)
    ensures Backward(nodes)
  {
  }

  // ----- writing the slots -----

  /** What becomes of one slot write when the machine stops: nothing, an unreadable copy, or the whole copy. */
  datatype Landing = Missed | Torn | Landed

  /** A new slot shows only when its key lands; an existing slot's inactive copy is overwritten. */
  function Written(heads: Option<Heads>, p: Pending, landing: Landing): Option<Heads> {
    if !p.changed || landing.Missed? then heads
    else
      var copy := if landing.Landed? then Copy(p.head, p.count, p.generation) else Unreadable;
      match heads
      case None => if landing.Landed? then Some(Heads(copy, Unreadable)) else None
      case Some(h) => if p.active == Some(0) then Some(h.(second := copy)) else Some(h.(first := copy))
  }

  function CellAt(cells: Cells, o: int): Option<Heads> { if o in cells then Some(cells[o]) else None }

  /** The active copy is never the one being written. */
  lemma WrittenIsReadable(cells: Cells, o: int, p: Pending, landing: Landing, nodes: seq<Node>)
    requires HeldFits(p, o, nodes, cells) && (o in cells ==> Readable(cells[o], nodes))
    ensures match Written(CellAt(cells, o), p, landing)
            case None => o !in cells && !landing.Landed?
            case Some(w) =>
              && Readable(w, nodes) && (landing.Landed? || o in cells)
              && HeadsHistory(nodes, w)
                 == if landing.Landed? then History(nodes, p.head) else CellHistory(nodes, cells, o)
  {
  }

  /** `cells'` is `cells` after every held write met its fate. */
  ghost predicate AllWritten(cells: Cells, cells': Cells, held: Held, landing: int -> Landing) {
    forall o ::
        CellAt(cells', o) == if o in held then Written(CellAt(cells, o), held[o], landing(o)) else CellAt(cells, o)
  }

  /** Each slot ends with its old or its new history, as its write was lost or landed. */
  lemma WrittenCells(nodes: seq<Node>, held: Held, cells: Cells, cells': Cells, landing: int -> Landing)
    requires InBatch(nodes, held, cells) && AllWritten(cells, cells', held, landing)
    ensures Sound(nodes, cells')
    ensures forall o :: o in cells' <==> o in cells || (o in held && landing(o).Landed?)
    ensures forall o :: CellHistory(nodes, cells', o)
              == if o in held && landing(o).Landed? then AheadAt(nodes, held, cells, o)
                else CellHistory(nodes, cells, o)
  {
    forall o
      ensures o in cells' <==> o in cells || (o in held && landing(o).Landed?)
      ensures o in cells' ==> Readable(cells'[o], nodes)
      ensures CellHistory(nodes, cells', o)
                == if o in held && landing(o).Landed? then AheadAt(nodes, held, cells, o)
                  else CellHistory(nodes, cells, o)
    {
      hide Written, Readable, HeadsHistory;
      assert CellAt(cells', o)
             == if o in held then Written(CellAt(cells, o), held[o], landing(o)) else CellAt(cells, o);
      if o in held { WrittenIsReadable(cells, o, held[o], landing(o), nodes); }
    }
  }

  method AnyOf(todo: set<int>) returns (o: int)
    requires todo != {}
    ensures o in todo
  {
    NotEmpty(todo);
    o :| o in todo;
  }

  lemma NotEmpty(todo: set<int>)
    ensures todo == {} || exists o :: o in todo
  {
    if forall o :: o !in todo { assert todo == {}; }
  }

  /** Each changed slot takes its new copy, or what its fate leaves of the write. */
  method WriteCells(cells: Cells, held: Held, landing: int -> Landing) returns (cells': Cells)
    ensures AllWritten(cells, cells', held, landing)
  {
    var todo := held.Keys;
    cells' := cells;
    while todo != {}
      invariant todo <= held.Keys
      invariant AllWritten(cells, cells', held - todo, landing)
      decreases |todo|
    {
      var o := AnyOf(todo);
      ghost var before, still := cells', todo;
      assert CellAt(cells', o) == CellAt(cells, o);
      var written := Written(CellAt(cells', o), held[o], landing(o));
      if written.Some? { cells' := cells'[o := written.value]; }
      todo := todo - {o};
      forall x ensures CellAt(cells', x)
          == if x in held - todo then Written(CellAt(cells, x), held[x], landing(x)) else CellAt(cells, x)
      {
        assert x != o ==> CellAt(cells', x) == CellAt(before, x) && (x in held - todo <==> x in held - still);
      }
    }
    assert held - todo == held;
  }

  // ----- cues and their slots -----

  function CueItem(cue: Cue): D.Item { D.Item(D.CueId(cue), D.Text(cue)) }

  ghost predicate IsCue(capsule: D.Capsule, cue: Cue) { capsule == D.Whole(CueItem(cue)) }

  /** Every whole item of the file is a cue. */
  ghost predicate CueFile(cues: seq<D.Capsule>) {
    forall k :: 0 <= k < |cues| && cues[k].Whole? ==> cues[k].item.id.CueId? && IsCue(cues[k], cues[k].item.id.cue)
  }

  ghost predicate NamesCue(cues: seq<D.Capsule>, o: int, cue: Cue) { 0 <= o < |cues| && IsCue(cues[o], cue) }

  /** Where a reader of the cue arrives; nowhere when another cue has taken its key. */
  ghost function OffsetOf(disk: D.Disk, powers: seq<nat>, hash: D.Hash, cue: Cue): (o: Option<int>)
    requires D.Lawful(disk, powers, hash)
    ensures o.Some? ==> NamesCue(disk.capsules, o.value, cue)
  {
    match hash(D.CueId(cue))
    case None => None
    case Some(key) =>
      match D.Offset(disk, powers, hash, D.Cues, key)
      case None => None
      case Some(o) => if IsCue(disk.capsules[o], cue) then Some(o) else None
  }

  lemma OffsetOfIsStable(before: D.Disk, after: D.Disk, powers: seq<nat>, hash: D.Hash, cue: Cue)
    requires D.Lawful(before, powers, hash) && D.Lawful(after, powers, hash) && D.Grows(before, after)
    requires OffsetOf(before, powers, hash, cue).Some?
    ensures OffsetOf(after, powers, hash, cue) == OffsetOf(before, powers, hash, cue)
  {
    hide D.Lawful, D.Offset;
    D.OffsetIsStable(before, after, powers, hash, D.Cues, hash(D.CueId(cue)).value);
  }

  lemma SealsKeepOffsetOf(before: D.Disk, after: D.Disk, powers: seq<nat>, hash: D.Hash, cue: Cue)
    requires D.Lawful(before, powers, hash) && D.Lawful(after, powers, hash) && D.SealsOnly(before, after)
    ensures OffsetOf(after, powers, hash, cue) == OffsetOf(before, powers, hash, cue)
  {
    hide D.Lawful, D.Offset, D.DiskResealed;
    if hash(D.CueId(cue)).Some? {
      D.SealsOnlyKeepsOffsets(before, after, powers, hash, D.Cues, hash(D.CueId(cue)).value);
    }
  }

  /** A stored slot refers to this offset. */
  ghost predicate HasSlot(disk: D.Disk, o: int) {
    exists name, i, s :: name in disk.chains && SlotHas(disk.chains[name], i, s, o)
  }

  ghost predicate SlotHas(chain: T.Chain<int>, i: int, s: int, o: int) {
    && 0 <= i < |chain| && 0 <= s < |chain[i].slots| && chain[i].slots[s].Used? && chain[i].slots[s].payload == o
  }

  lemma OffsetHasSlot(disk: D.Disk, powers: seq<nat>, hash: D.Hash, cue: Cue)
    requires D.Lawful(disk, powers, hash) && OffsetOf(disk, powers, hash, cue).Some?
    ensures HasSlot(disk, OffsetOf(disk, powers, hash, cue).value)
  {
    hide D.AllPointRight, T.ProbeFrom;
    var key := hash(D.CueId(cue)).value;
    var name := D.NameOf(D.Cues, key);
    var place := T.Seek(D.ChainAt(disk.chains, name), powers, key, 0);
    assert SlotHas(disk.chains[name], place.level, place.slot, OffsetOf(disk, powers, hash, cue).value);
  }

  lemma SlotsStay(before: D.Disk, after: D.Disk, o: int)
    requires D.Grows(before, after) && HasSlot(before, o)
    ensures HasSlot(after, o)
  {
    var name, i, s :| name in before.chains && SlotHas(before.chains[name], i, s, o);
    assert T.ChainGrows(before.chains[name], after.chains[name])
           && D.SlotsKept(before.chains[name], after.chains[name]);
    assert T.SlotsGrow(before.chains[name][i].slots, after.chains[name][i].slots);
    assert D.LevelKept(before.chains[name][i].slots, after.chains[name][i].slots);
    assert SlotHas(after.chains[name], i, s, o);
  }

  lemma SealsAddNoSlot(before: D.Disk, after: D.Disk, o: int)
    requires D.SealsOnly(before, after) && HasSlot(after, o)
    ensures HasSlot(before, o)
  {
    var name, i, s :| name in after.chains && SlotHas(after.chains[name], i, s, o);
    assert T.Resealed(D.ChainAt(before.chains, name), after.chains[name]);
    if i >= |D.ChainAt(before.chains, name)| {
      assert T.HoldsKeys(after.chains[name][i]);
      assert false;
    }
    assert SlotHas(before.chains[name], i, s, o);
  }

  /** Exactly the stored slots have a cell. */
  ghost predicate CellsMatch(disk: D.Disk, cells: Cells) { forall o :: o in cells <==> HasSlot(disk, o) }

  lemma SlotIsCue(disk: D.Disk, powers: seq<nat>, hash: D.Hash, o: int)
    requires D.Lawful(disk, powers, hash) && HasSlot(disk, o)
    ensures 0 <= o < |disk.capsules| && disk.capsules[o].Whole?
  {
    var name, i, s :| name in disk.chains && SlotHas(disk.chains[name], i, s, o);
    assert D.LawfulChain(disk.chains[name], name, disk.capsules, powers, hash);
    assert D.AllPointRight(disk.chains[name][i].slots, name, disk.capsules, hash);
    assert D.PointsRight(disk.chains[name][i].slots[s], name, disk.capsules, hash);
  }

  /** A slot of the cue is stored, but a reader stops short of it. */
  ghost predicate Hidden(disk: D.Disk, cells: Cells, powers: seq<nat>, hash: D.Hash, cue: Cue)
    requires D.Lawful(disk, powers, hash)
  {
    OffsetOf(disk, powers, hash, cue) == None && exists o :: o in cells && NamesCue(disk.capsules, o, cue)
  }

  /** On a disk no crash touched, nothing is hidden. */
  lemma CleanHidesNothing(disk: D.Disk, cells: Cells, powers: seq<nat>, hash: D.Hash, cue: Cue)
    requires D.Lawful(disk, powers, hash) && D.CleanDisk(disk, powers) && CellsMatch(disk, cells)
    ensures !Hidden(disk, cells, powers, hash, cue)
  {
    hide D.Lawful, D.CleanDisk, D.Offset, T.ProbeFrom;
    if Hidden(disk, cells, powers, hash, cue) {
      var o :| o in cells && NamesCue(disk.capsules, o, cue);
      assert HasSlot(disk, o);
      var name, i, s :| name in disk.chains && SlotHas(disk.chains[name], i, s, o);
      ReachableOffset(disk, powers, hash, name, i, s);
      assert false;
    }
  }

  lemma ReachableOffset(disk: D.Disk, powers: seq<nat>, hash: D.Hash, name: D.ChainName, i: nat, s: nat)
    requires D.Lawful(disk, powers, hash) && D.CleanDisk(disk, powers) && name in disk.chains
    requires i < |disk.chains[name]| && s < |disk.chains[name][i].slots| && disk.chains[name][i].slots[s].Used?
    ensures var used := disk.chains[name][i].slots[s];
            && 0 <= used.payload < |disk.capsules| && disk.capsules[used.payload].Whole?
            && disk.capsules[used.payload].item.id.Space() == name.space
            && hash(disk.capsules[used.payload].item.id) == Some(used.key)
            && D.Offset(disk, powers, hash, name.space, used.key) == Some(used.payload)
  {
    hide T.WithinLoad, T.ProbeFrom;
    var used := disk.chains[name][i].slots[s];
    assert D.LawfulChain(disk.chains[name], name, disk.capsules, powers, hash);
    assert D.AllPointRight(disk.chains[name][i].slots, name, disk.capsules, hash);
    assert D.PointsRight(used, name, disk.capsules, hash);
    assert T.Clean(disk.chains[name], powers);
    assert T.Seek(disk.chains[name], powers, used.key, 0) == T.At(i, s);
    assert D.NameOf(name.space, used.key) == name;
  }

  // ----- a batch in flight -----

  function ItemsOf(offers: seq<Offer>): (items: seq<D.Item>)
    ensures |items| == |offers|
  {
    seq(|offers|, k requires 0 <= k < |offers| => CueItem(offers[k].cue))
  }

  function CueAt(cues: seq<D.Capsule>, o: int): Cue {
    if 0 <= o < |cues| && cues[o].Whole? && cues[o].item.id.CueId? then cues[o].item.id.cue else ""
  }

  /** New slots are exactly the held offsets without a cell. */
  ghost predicate PendingHeld(batch: D.Batch, held: Held, cells: Cells) {
    && (forall n,
         at :: at in batch.On(n).slots ==> batch.On(n).slots[at].Used? && batch.On(n).slots[at].payload in held)
    && (forall o :: o in held && o !in cells ==> D.IsPending(batch, o))
  }

  /** The cues offered so far are found in the batch's view, each at its own held offset. */
  ghost predicate Located(view: D.Disk, offers: seq<Offer>, held: Held, powers: seq<nat>, hash: D.Hash)
    requires D.Lawful(view, powers, hash)
  {
    && (forall c :: Offered(offers, c) ==>
           OffsetOf(view, powers, hash, c).Some? && OffsetOf(view, powers, hash, c).value in held)
    && (forall o :: o in held ==>
         NamesCue(view.capsules, o, CueAt(view.capsules, o))
           && OffsetOf(view, powers, hash, CueAt(view.capsules, o)) == Some(o))
  }

  /** Each held slot has been given the entries offered to its cue. */
  ghost predicate Given(cues: seq<D.Capsule>, offers: seq<Offer>, nodes: seq<Node>, held: Held, cells: Cells) {
    forall o :: o in held ==>
      AheadAt(nodes, held, cells, o) == PublishAll(CellHistory(nodes, cells, o), EntriesFor(offers, CueAt(cues, o)))
  }

  /** The offsets in use lie in the file. */
  ghost predicate Below(cells: Cells, held: Held, cues: seq<D.Capsule>) {
    (forall o :: o in cells ==> 0 <= o < |cues|) && (forall o :: o in held ==> 0 <= o < |cues|)
  }

  ghost predicate Session(start: D.Disk, postings: seq<Node>, disk: D.Disk, batch: D.Batch, offers: seq<Offer>,
      nodes: seq<Node>, held: Held, cells: Cells, powers: seq<nat>, hash: D.Hash)
  {
    && D.Progress(start, disk, batch, ItemsOf(offers), |offers|, powers, hash)
    && D.Lawful(D.VirtualDisk(disk, batch), powers, hash)
    && postings <= nodes && Sound(postings, cells)
    && InBatch(nodes, held, cells) && CueFile(disk.capsules) && Below(cells, held, disk.capsules)
    && PendingHeld(batch, held, cells)
    && Located(D.VirtualDisk(disk, batch), offers, held, powers, hash)
    && Given(disk.capsules, offers, nodes, held, cells)
  }

  lemma ItemsMore(offers: seq<Offer>, offer: Offer)
    ensures ItemsOf(offers + [offer]) == ItemsOf(offers) + [CueItem(offer.cue)]
  {
  }

  lemma StepPending(disk: D.Disk, batch: D.Batch, disk': D.Disk, batch': D.Batch, o: int, item: D.Item, key: T.Key,
      held: Held, held': Held, cells: Cells, powers: seq<nat>, hash: D.Hash)
    requires PendingHeld(batch, held, cells) && Below(cells, held, disk.capsules)
    requires D.PlacedAt(disk, batch, disk', batch', o, item, key, powers, hash) && held'.Keys == held.Keys + {o}
    requires o < |disk.capsules| ==> o in held || o in cells
    ensures PendingHeld(batch', held', cells) && Below(cells, held', disk'.capsules)
  {
    hide D.Lawful, D.Offset, D.VirtualDisk, D.IsPending, D.SlotsFrom;
    StillPending(batch, batch', o, held, held', cells);
  }

  lemma StillPending(batch: D.Batch, batch': D.Batch, o: int, held: Held, held': Held, cells: Cells)
    requires PendingHeld(batch, held, cells) && D.SlotsFrom(batch, batch', o) && held'.Keys == held.Keys + {o}
    requires o in held || o in cells || D.IsPending(batch', o)
    ensures PendingHeld(batch', held', cells)
  {
    forall x | x in held' && x !in cells ensures D.IsPending(batch', x) {
      if x in held {
        var n, at :| at in batch.On(n).slots && batch.On(n).slots[at].Used? && batch.On(n).slots[at].payload == x;
        assert at in batch'.On(n).slots && batch'.On(n).slots[at] == batch.On(n).slots[at];
      }
    }
    forall n, at | at in batch'.On(n).slots
      ensures batch'.On(n).slots[at].Used? && batch'.On(n).slots[at].payload in held'
    {
      if at in batch.On(n).slots { assert batch'.On(n).slots[at] == batch.On(n).slots[at]; }
    }
  }

  lemma StepLocated(view: D.Disk, view': D.Disk, offers: seq<Offer>, offer: Offer, o: int, held: Held, held': Held,
      powers: seq<nat>, hash: D.Hash)
    requires D.Lawful(view, powers, hash) && D.Lawful(view', powers, hash) && D.Grows(view, view')
    requires Located(view, offers, held, powers, hash) && held'.Keys == held.Keys + {o}
    requires OffsetOf(view', powers, hash, offer.cue) == Some(o)
    ensures Located(view', offers + [offer], held', powers, hash)
    ensures forall x :: x in held && x != o ==> CueAt(view'.capsules, x) == CueAt(view.capsules, x) != offer.cue
    ensures CueAt(view'.capsules, o) == offer.cue
    ensures o !in held ==> !Offered(offers, offer.cue)
  {
    hide D.Lawful, OffsetOf;
    assert view.capsules <= view'.capsules;
    forall c | Offered(offers + [offer], c)
      ensures OffsetOf(view', powers, hash, c).Some? && OffsetOf(view', powers, hash, c).value in held'
    {
      if c != offer.cue {
        var k :| 0 <= k < |offers + [offer]| && (offers + [offer])[k].cue == c;
        assert offers[k].cue == c && Offered(offers, c);
        OffsetOfIsStable(view, view', powers, hash, c);
      }
    }
    forall x | x in held
      ensures CueAt(view'.capsules, x) == CueAt(view.capsules, x)
              && NamesCue(view'.capsules, x, CueAt(view.capsules, x))
      ensures OffsetOf(view', powers, hash, CueAt(view.capsules, x)) == Some(x)
      ensures x != o ==> CueAt(view.capsules, x) != offer.cue
    {
      OffsetOfIsStable(view, view', powers, hash, CueAt(view.capsules, x));
    }
    if Offered(offers, offer.cue) { OffsetOfIsStable(view, view', powers, hash, offer.cue); }
  }

  lemma StepGiven(cues: seq<D.Capsule>, cues': seq<D.Capsule>, offers: seq<Offer>, offer: Offer, o: int,
      nodes: seq<Node>, held: Held, nodes': seq<Node>, held': Held, cells: Cells)
    requires Given(cues, offers, nodes, held, cells) && Sound(nodes, cells) && nodes <= nodes'
    requires OfferedAt(nodes, held, nodes', held', cells, o, offer.entry)
    requires forall x :: x in held && x != o ==> CueAt(cues', x) == CueAt(cues, x) != offer.cue
    requires CueAt(cues', o) == offer.cue && (o in held ==> CueAt(cues, o) == offer.cue)
    requires o !in held ==> !Offered(offers, offer.cue)
    ensures Given(cues', offers + [offer], nodes', held', cells)
  {
    hide CellHistory, InBatch, Publish, PublishAll, EntriesFor, CueAt, Sound, Offered, History;
    assert nodes' == nodes + nodes'[|nodes|..];
    StepSound(nodes', held', cells);
    CellsStable(nodes, nodes'[|nodes|..], cells);
    forall x | x in held'
      ensures AheadAt(nodes', held', cells, x)
           == PublishAll(CellHistory(nodes', cells, x), EntriesFor(offers + [offer], CueAt(cues', x)))
    {
      EntriesForMore(offers, offer, CueAt(cues', x));
      var entries := EntriesFor(offers, CueAt(cues', x));
      if x == o {
        if o !in held { NotOffered(offers, offer.cue); }
        PublishOneMore(CellHistory(nodes, cells, o), entries, offer.entry);
      } else {
        assert entries + [] == entries;
      }
    }
  }

  lemma StepSound(nodes: seq<Node>, held: Held, cells: Cells)
    requires InBatch(nodes, held, cells)
    ensures Backward(nodes)
  {
  }

  lemma PublishOneMore(history: seq<Entry>, entries: seq<Entry>, entry: Entry)
    ensures PublishAll(history, entries + [entry]) == Publish(PublishAll(history, entries), entry)
    ensures PublishAll(history, []) == history
  {
    assert (entries + [entry])[..|entries|] == entries;
  }

  lemma StepProgress(start: D.Disk, disk: D.Disk, batch: D.Batch, disk': D.Disk, batch': D.Batch, offers: seq<Offer>,
      offer: Offer, key: T.Key, powers: seq<nat>, hash: D.Hash)
    requires D.Progress(start, disk, batch, ItemsOf(offers), |offers|, powers, hash)
             && hash(D.CueId(offer.cue)) == Some(key)
    requires D.ItemStep(disk, batch, disk', batch', None, CueItem(offer.cue), key, powers, hash)
    ensures D.Progress(start, disk', batch', ItemsOf(offers + [offer]), |offers| + 1, powers, hash)
  {
    hide D.Progress, D.ItemStep;
    ItemsMore(offers, offer);
    D.ProgressExtends(start, disk, batch, ItemsOf(offers), CueItem(offer.cue), powers, hash);
    D.ProgressStep(start, disk, batch, disk', batch', ItemsOf(offers) + [CueItem(offer.cue)], |offers|, key, powers,
      hash);
  }

  lemma ViewFacts(disk: D.Disk, batch: D.Batch, disk': D.Disk, batch': D.Batch, cue: Cue, key: T.Key, o: int,
      powers: seq<nat>, hash: D.Hash)
    requires hash(D.CueId(cue)) == Some(key)
    requires D.ItemStep(disk, batch, disk', batch', None, CueItem(cue), key, powers, hash)
    requires D.PlacedAt(disk, batch, disk', batch', o, CueItem(cue), key, powers, hash)
    ensures var view, view' := D.VirtualDisk(disk, batch), D.VirtualDisk(disk', batch');
            && D.Lawful(view, powers, hash) && D.Lawful(view', powers, hash) && D.Grows(view, view')
            && view.capsules == disk.capsules && view'.capsules == disk'.capsules
            && OffsetOf(view', powers, hash, cue) == Some(o)
  {
    hide D.Lawful, D.BatchHolds, D.SealsOnly, D.AllUncrashed, D.OthersKept, D.Offset;
    D.StagedGrows(D.VirtualDisk(disk, batch), D.VirtualDisk(disk', batch'), batch.seen, key, CueItem(cue), powers,
      hash);
  }

  /** A slot the view shows is stored or pending. */
  lemma ViewSlot(start: D.Disk, disk: D.Disk, batch: D.Batch, held: Held, cells: Cells, o: int)
    requires CellsMatch(start, cells) && D.SealsOnly(start, disk) && PendingHeld(batch, held, cells)
    requires HasSlot(D.VirtualDisk(disk, batch), o)
    ensures o in held || o in cells
  {
    var view := D.VirtualDisk(disk, batch);
    var name, i, s :| name in view.chains && SlotHas(view.chains[name], i, s, o);
    var stored := disk.chains[name][i].slots[s];
    assert view.chains[name][i].slots[s] == D.PendingSlot(stored, D.Address(i, s), batch.On(name).slots);
    if D.Address(i, s) !in batch.On(name).slots {
      assert SlotHas(disk.chains[name], i, s, o);
      SealsAddNoSlot(start, disk, o);
    }
  }

  lemma PlacedSlotKnown(start: D.Disk, disk: D.Disk, batch: D.Batch, disk': D.Disk, batch': D.Batch, o: int, cue: Cue,
      key: T.Key, held: Held, cells: Cells, powers: seq<nat>, hash: D.Hash)
    requires CellsMatch(start, cells) && D.SealsOnly(start, disk') && PendingHeld(batch, held, cells)
    requires hash(D.CueId(cue)) == Some(key)
    requires D.PlacedAt(disk, batch, disk', batch', o, CueItem(cue), key, powers, hash) && o < |disk.capsules|
    ensures o in held || o in cells
  {
    hide D.Lawful, D.Offset, D.SealsOnly, HasSlot;
    SameSlotsPending(batch, batch', held, cells);
    OffsetHasSlot(D.VirtualDisk(disk', batch'), powers, hash, cue);
    ViewSlot(start, disk', batch', held, cells, o);
  }

  lemma SameSlotsPending(batch: D.Batch, batch': D.Batch, held: Held, cells: Cells)
    requires PendingHeld(batch, held, cells) && forall n :: batch'.On(n).slots == batch.On(n).slots
    ensures PendingHeld(batch', held, cells)
  {
    forall o | o in held && o !in cells ensures D.IsPending(batch', o) {
      var n, at :| at in batch.On(n).slots && batch.On(n).slots[at].Used? && batch.On(n).slots[at].payload == o;
      assert at in batch'.On(n).slots;
    }
  }

  lemma StepCueFile(cues: seq<D.Capsule>, cues': seq<D.Capsule>, cue: Cue)
    requires CueFile(cues) && (cues' == cues || cues' == cues + [D.Whole(CueItem(cue))])
    ensures CueFile(cues')
  {
  }

  lemma SessionStep(start: D.Disk, postings: seq<Node>, disk: D.Disk, batch: D.Batch, offers: seq<Offer>,
      nodes: seq<Node>, held: Held, cells: Cells, disk': D.Disk, batch': D.Batch, o: int, offer: Offer, key: T.Key,
      nodes': seq<Node>, held': Held, powers: seq<nat>, hash: D.Hash)
    requires Session(start, postings, disk, batch, offers, nodes, held, cells, powers, hash) && CellsMatch(start, cells)
    requires hash(D.CueId(offer.cue)) == Some(key)
    requires D.ItemStep(disk, batch, disk', batch', None, CueItem(offer.cue), key, powers, hash)
    requires D.PlacedAt(disk, batch, disk', batch', o, CueItem(offer.cue), key, powers, hash)
    requires OfferedAt(nodes, held, nodes', held', cells, o, offer.entry)
    ensures Session(start, postings, disk', batch', offers + [offer], nodes', held', cells, powers, hash)
  {
    hide D.Progress, D.ItemStep, D.PlacedAt, D.Lawful, D.Grows, InBatch, CueFile, Below, PendingHeld, Located, Given,
         CellsMatch,
      AheadAt, CueAt, OffsetOf, D.VirtualDisk;
    var view, view' := D.VirtualDisk(disk, batch), D.VirtualDisk(disk', batch');
    StepProgress(start, disk, batch, disk', batch', offers, offer, key, powers, hash);
    ViewFacts(disk, batch, disk', batch', offer.cue, key, o, powers, hash);
    StepCues(start, disk, batch, offers, disk', batch', o, offer, key, held, held', cells, powers, hash);
    StepLocated(view, view', offers, offer, o, held, held', powers, hash);
    if o in held { OffsetNames(view, view', offers, held, o, offer.cue, powers, hash); }
    SoundBatch(nodes, held, cells);
    StepGiven(disk.capsules, disk'.capsules, offers, offer, o, nodes, held, nodes', held', cells);
  }

  lemma SoundBatch(nodes: seq<Node>, held: Held, cells: Cells)
    requires InBatch(nodes, held, cells)
    ensures Sound(nodes, cells)
  {
  }

  lemma OffsetNames(view: D.Disk, view': D.Disk, offers: seq<Offer>, held: Held, o: int, cue: Cue, powers: seq<nat>,
      hash: D.Hash)
    requires D.Lawful(view, powers, hash) && D.Lawful(view', powers, hash) && D.Grows(view, view')
    requires Located(view, offers, held, powers, hash) && o in held && OffsetOf(view', powers, hash, cue) == Some(o)
    ensures CueAt(view.capsules, o) == cue
  {
    hide D.Lawful;
    OffsetOfIsStable(view, view', powers, hash, CueAt(view.capsules, o));
    assert view.capsules <= view'.capsules;
  }

  lemma StepCues(start: D.Disk, disk: D.Disk, batch: D.Batch, offers: seq<Offer>, disk': D.Disk, batch': D.Batch,
      o: int, offer: Offer, key: T.Key, held: Held, held': Held, cells: Cells, powers: seq<nat>, hash: D.Hash)
    requires D.Progress(start, disk', batch', ItemsOf(offers + [offer]), |offers| + 1, powers, hash)
             && CellsMatch(start, cells)
    requires CueFile(disk.capsules) && Below(cells, held, disk.capsules) && PendingHeld(batch, held, cells)
    requires hash(D.CueId(offer.cue)) == Some(key) && held'.Keys == held.Keys + {o}
    requires D.PlacedAt(disk, batch, disk', batch', o, CueItem(offer.cue), key, powers, hash)
    ensures CueFile(disk'.capsules) && Below(cells, held', disk'.capsules) && PendingHeld(batch', held', cells)
  {
    hide D.Lawful, D.BatchHolds, D.Grows, D.SealsOnly, D.Offset, D.VirtualDisk, D.SlotsFrom, Below, PendingHeld,
         CellsMatch, CueFile;
    StepCueFile(disk.capsules, disk'.capsules, offer.cue);
    if o < |disk.capsules| {
      PlacedSlotKnown(start, disk, batch, disk', batch', o, offer.cue, key, held, cells, powers, hash);
    }
    StepPending(disk, batch, disk', batch', o, CueItem(offer.cue), key, held, held', cells, powers, hash);
  }

  lemma SessionStart(disk: D.Disk, postings: seq<Node>, cells: Cells, powers: seq<nat>, hash: D.Hash)
    requires D.Lawful(disk, powers, hash) && CueFile(disk.capsules) && Sound(postings, cells) && CellsMatch(disk, cells)
    ensures Session(disk, postings, disk, D.NO_BATCH, [], postings, map[], cells, powers, hash)
  {
    hide D.Lawful, D.Progress, D.VirtualDisk, CueFile, Sound, OffsetOf, HasSlot;
    D.ProgressStart(disk, [], powers, hash);
    StartView(disk, powers, hash);
    forall o | o in cells ensures 0 <= o < |disk.capsules| { SlotIsCue(disk, powers, hash, o); }
  }

  lemma StartView(disk: D.Disk, powers: seq<nat>, hash: D.Hash)
    requires D.Progress(disk, disk, D.NO_BATCH, [], 0, powers, hash)
    ensures D.Lawful(D.VirtualDisk(disk, D.NO_BATCH), powers, hash)
  {
  }

  // ----- what a batch leaves -----

  /** What the readers of a cue are shown, oldest first. */
  ghost function Shown(disk: D.Disk, postings: seq<Node>, cells: Cells, powers: seq<nat>, hash: D.Hash,
      cue: Cue): seq<Entry>
    requires D.Lawful(disk, powers, hash)
  {
    match OffsetOf(disk, powers, hash, cue)
    case None => []
    case Some(o) => CellHistory(postings, cells, o)
  }

  /** The history a batch builds on: what is shown, or, for a hidden cue, what a slot of it holds. */
  ghost predicate BuiltOn(disk: D.Disk, postings: seq<Node>, cells: Cells, powers: seq<nat>, hash: D.Hash, cue: Cue,
      history: seq<Entry>)
    requires D.Lawful(disk, powers, hash)
  {
    || history == Shown(disk, postings, cells, powers, hash, cue)
    || (OffsetOf(disk, powers, hash, cue) == None
        && exists o :: o in cells && NamesCue(disk.capsules, o, cue) && history == CellHistory(postings, cells, o))
  }

  lemma NotHiddenBuiltOn(disk: D.Disk, postings: seq<Node>, cells: Cells, powers: seq<nat>, hash: D.Hash, cue: Cue,
      history: seq<Entry>)
    requires D.Lawful(disk, powers, hash) && BuiltOn(disk, postings, cells, powers, hash, cue, history)
    requires !Hidden(disk, cells, powers, hash, cue)
    ensures history == Shown(disk, postings, cells, powers, hash, cue)
  {
  }

  /** The pending slots whose write lands. */
  function LandedSlots(batch: D.Batch, landing: int -> Landing): set<(D.ChainName, D.Address)> {
    set pair | pair in D.EverySlot(batch) && SlotLands(batch, pair, landing)
  }

  predicate SlotLands(batch: D.Batch, pair: (D.ChainName, D.Address), landing: int -> Landing) {
    && pair.1 in batch.On(pair.0).slots && batch.On(pair.0).slots[pair.1].Used?
    && landing(batch.On(pair.0).slots[pair.1].payload).Landed?
  }

  lemma EveryPair(batch: D.Batch, n: D.ChainName, at: D.Address)
    ensures at in batch.On(n).slots <==> (n, at) in D.EverySlot(batch)
    ensures at in batch.On(n).slots ==> n in batch.touched
  {
  }

  /** Published or not: one slot of the image of a commit. */
  lemma ImageSlot(disk: D.Disk, batch: D.Batch, landing: int -> Landing, counted: set<(D.ChainName, nat)>,
      name: D.ChainName, i: nat, s: nat)
    requires name in disk.chains && i < |disk.chains[name]| && s < |disk.chains[name][i].slots|
    requires forall n, at :: at in batch.On(n).slots ==> batch.On(n).slots[at].Used?
    ensures var image := D.PublishDisk(disk, batch, LandedSlots(batch, landing), counted);
            var at := D.Address(i, s);
            && name in image.chains && i < |image.chains[name]| && s < |image.chains[name][i].slots|
            && image.chains[name][i].slots[s] ==
                 if at in batch.On(name).slots && landing(batch.On(name).slots[at].payload).Landed?
                 then batch.On(name).slots[at] else disk.chains[name][i].slots[s]
  {
    var landed := LandedSlots(batch, landing);
    EveryPair(batch, name, D.Address(i, s));
    assert D.Address(i, s) in D.PartOf(landed, name) <==> (name, D.Address(i, s)) in landed;
  }

  lemma ImageShape(disk: D.Disk, batch: D.Batch, landed: set<(D.ChainName, D.Address)>,
      counted: set<(D.ChainName, nat)>, name: D.ChainName, i: nat)
    requires name in disk.chains && i < |disk.chains[name]|
    ensures var image := D.PublishDisk(disk, batch, landed, counted);
            && image.capsules == disk.capsules && image.chains.Keys == disk.chains.Keys
            && |image.chains[name]| == |disk.chains[name]|
               && |image.chains[name][i].slots| == |disk.chains[name][i].slots|
  {
  }

  /** After the commit, again exactly the stored slots have a cell. */
  lemma ImageMatches(start: D.Disk, disk: D.Disk, batch: D.Batch, held: Held, cells: Cells, cells': Cells,
      landing: int -> Landing, counted: set<(D.ChainName, nat)>, o: int)
    requires CellsMatch(start, cells) && D.SealsOnly(start, disk) && PendingHeld(batch, held, cells)
    requires D.Grows(start, D.PublishDisk(disk, batch, LandedSlots(batch, landing), counted))
    requires PendingInside(disk, batch)
    requires forall x :: x in cells' <==> x in cells || (x in held && landing(x).Landed?)
    ensures o in cells' <==> HasSlot(D.PublishDisk(disk, batch, LandedSlots(batch, landing), counted), o)
  {
    hide D.PublishDisk, D.Grows, D.SealsOnly, LandedSlots;
    var image := D.PublishDisk(disk, batch, LandedSlots(batch, landing), counted);
    if o in cells {
      SlotsStay(start, image, o);
    } else if o in held && landing(o).Landed? {
      assert D.IsPending(batch, o);
      var n, at :| at in batch.On(n).slots && batch.On(n).slots[at].Used? && batch.On(n).slots[at].payload == o;
      ImageSlot(disk, batch, landing, counted, n, at.level, at.slot);
      assert SlotHas(image.chains[n], at.level, at.slot, o);
    }
    if HasSlot(image, o) { ImageSlotKnown(start, disk, batch, held, cells, landing, counted, o); }
  }

  lemma ImageSlotKnown(start: D.Disk, disk: D.Disk, batch: D.Batch, held: Held, cells: Cells, landing: int -> Landing,
      counted: set<(D.ChainName, nat)>, o: int)
    requires CellsMatch(start, cells) && D.SealsOnly(start, disk) && PendingHeld(batch, held, cells)
    requires HasSlot(D.PublishDisk(disk, batch, LandedSlots(batch, landing), counted), o)
    ensures o in cells || (o in held && landing(o).Landed?)
  {
    hide D.SealsOnly, LandedSlots, D.Publish;
    var image := D.PublishDisk(disk, batch, LandedSlots(batch, landing), counted);
    var name, i, s :| name in image.chains && SlotHas(image.chains[name], i, s, o);
    ImageShape(disk, batch, LandedSlots(batch, landing), counted, name, i);
    ImageSlot(disk, batch, landing, counted, name, i, s);
    var at := D.Address(i, s);
    if !(at in batch.On(name).slots && landing(batch.On(name).slots[at].payload).Landed?) {
      assert SlotHas(disk.chains[name], i, s, o);
      SealsAddNoSlot(start, disk, o);
    }
  }

  /** Every pending slot lies in a chain. */
  ghost predicate PendingInside(disk: D.Disk, batch: D.Batch) {
    forall n, at :: at in batch.On(n).slots ==> InChain(disk, n, at)
  }

  ghost predicate InChain(disk: D.Disk, n: D.ChainName, at: D.Address) {
    n in disk.chains && at.level < |disk.chains[n]| && at.slot < |disk.chains[n][at.level].slots|
  }

  lemma BatchInside(disk: D.Disk, batch: D.Batch, powers: seq<nat>, hash: D.Hash)
    requires D.BatchFits(disk, batch, powers, hash)
    ensures PendingInside(disk, batch)
  {
    hide D.LawfulChain, D.PendingAreSeen;
    forall n, at | at in batch.On(n).slots ensures InChain(disk, n, at) {
      EveryPair(batch, n, at);
      assert D.ChainSession(disk.chains[n], batch.On(n), n, disk.capsules, powers, hash);
    }
  }

  /** What became of one cue: the batch's entries on top of what it built on, or none of them. */
  ghost predicate Became(start: D.Disk, postings: seq<Node>, cells: Cells, after: D.Disk, postings': seq<Node>,
      cells': Cells, offers: seq<Offer>, powers: seq<nat>, hash: D.Hash, whole: bool, cue: Cue)
    requires D.Lawful(start, powers, hash) && D.Lawful(after, powers, hash)
  {
    exists history :: BuiltOn(start, postings, cells, powers, hash, cue, history) && EndsAs(history,
      Shown(after, postings', cells', powers, hash, cue), EntriesFor(offers, cue), whole)
  }

  ghost predicate EndsAs(history: seq<Entry>, shown: seq<Entry>, entries: seq<Entry>, whole: bool) {
    shown == PublishAll(history, entries) || (!whole && shown == history)
  }

  lemma BecameIntro(start: D.Disk, postings: seq<Node>, cells: Cells, after: D.Disk, postings': seq<Node>,
      cells': Cells, offers: seq<Offer>, powers: seq<nat>, hash: D.Hash, whole: bool, cue: Cue, history: seq<Entry>)
    requires D.Lawful(start, powers, hash) && D.Lawful(after, powers, hash)
    requires BuiltOn(start, postings, cells, powers, hash, cue, history)
    requires EndsAs(history, Shown(after, postings', cells', powers, hash, cue), EntriesFor(offers, cue), whole)
    ensures Became(start, postings, cells, after, postings', cells', offers, powers, hash, whole, cue)
  {
  }

  /** The commit of a batch, seen cue by cue. */
  lemma CommitShows(start: D.Disk, postings: seq<Node>, cells: Cells, view: D.Disk, image: D.Disk, offers: seq<Offer>,
      nodes: seq<Node>, held: Held, cells': Cells, landing: int -> Landing, powers: seq<nat>, hash: D.Hash,
      whole: bool, cue: Cue)
    requires D.Lawful(start, powers, hash) && D.Lawful(image, powers, hash) && D.Lawful(view, powers, hash)
    requires D.Grows(start, image) && image.capsules == view.capsules
    requires CellsMatch(start, cells) && CellsMatch(image, cells')
    requires forall o :: CellHistory(nodes, cells', o)
               == if o in held && landing(o).Landed? then AheadAt(nodes, held, cells, o)
                 else CellHistory(nodes, cells, o)
    requires forall o :: CellHistory(nodes, cells, o) == CellHistory(postings, cells, o)
    requires Given(view.capsules, offers, nodes, held, cells) && Located(view, offers, held, powers, hash)
    requires whole ==> image == view && forall o :: landing(o).Landed?
    ensures Became(start, postings, cells, image, nodes, cells', offers, powers, hash, whole, cue)
  {
    hide D.Lawful, HasSlot, CellHistory, AheadAt, D.Grows;
    assert start.capsules <= image.capsules by { GrowsCapsules(start, image); }
    if OffsetOf(start, powers, hash, cue).Some? { OffsetOfIsStable(start, image, powers, hash, cue); }
    var entries := EntriesFor(offers, cue);
    match OffsetOf(image, powers, hash, cue)
    case None =>
      if whole { NotOffered(offers, cue); }
      BecameIntro(start, postings, cells, image, nodes, cells', offers, powers, hash, whole, cue, []);
    case Some(o) =>
      var history := CellHistory(nodes, cells, o);
      ShownIsBuiltOn(start, image, postings, cells, powers, hash, cue, o);
      if o in held && landing(o).Landed? {
        assert CueAt(view.capsules, o) == cue;
      } else if whole {
        if Offered(offers, cue) { assert false; }
        NotOffered(offers, cue);
      }
      BecameIntro(start, postings, cells, image, nodes, cells', offers, powers, hash, whole, cue, history);
  }

  lemma GrowsCapsules(before: D.Disk, after: D.Disk)
    requires D.Grows(before, after)
    ensures before.capsules <= after.capsules
  {
  }

  lemma ShownIsBuiltOn(start: D.Disk, image: D.Disk, postings: seq<Node>, cells: Cells, powers: seq<nat>, hash: D.Hash,
      cue: Cue, o: int)
    requires D.Lawful(start, powers, hash) && D.Lawful(image, powers, hash) && start.capsules <= image.capsules
    requires CellsMatch(start, cells) && OffsetOf(image, powers, hash, cue) == Some(o)
    requires OffsetOf(start, powers, hash, cue).Some? ==> OffsetOf(start, powers, hash, cue) == Some(o)
    ensures BuiltOn(start, postings, cells, powers, hash, cue, CellHistory(postings, cells, o))
  {
    hide D.Lawful, HasSlot, D.Offset;
    if OffsetOf(start, powers, hash, cue) == None && o in cells {
      SlotIsCue(start, powers, hash, o);
      assert NamesCue(start.capsules, o, cue);
    }
  }

  /** What an abandoned batch has left on disk: seals, and no level beyond its load that was within it. */
  ghost predicate Quiet(start: D.Disk, disk: D.Disk, powers: seq<nat>, hash: D.Hash) {
    && D.Lawful(start, powers, hash) && D.Lawful(disk, powers, hash) && D.SealsOnly(start, disk)
    && (D.CleanDisk(start, powers) ==> D.AllWithinLoad(disk, powers))
  }

  lemma SessionFacts(start: D.Disk, postings: seq<Node>, disk: D.Disk, batch: D.Batch, offers: seq<Offer>,
      nodes: seq<Node>, held: Held, cells: Cells, powers: seq<nat>, hash: D.Hash)
    requires Session(start, postings, disk, batch, offers, nodes, held, cells, powers, hash)
    ensures Quiet(start, disk, powers, hash) && D.BatchHolds(disk, batch, powers, hash) && InBatch(nodes, held, cells)
    ensures batch.touched.Keys <= disk.chains.Keys && CueFile(disk.capsules) && start.capsules <= disk.capsules
    ensures postings <= nodes && Backward(nodes)
  {
    D.ProgressWithinLoad(start, disk, batch, ItemsOf(offers), |offers|, powers, hash);
    D.ProgressFits(start, disk, batch, ItemsOf(offers), |offers|, powers, hash);
  }

  lemma StepQuiet(start: D.Disk, postings: seq<Node>, disk: D.Disk, batch: D.Batch, disk': D.Disk, batch': D.Batch,
      offers: seq<Offer>, nodes: seq<Node>, held: Held, cells: Cells, error: Option<D.Error>, item: D.Item, key: T.Key,
      powers: seq<nat>, hash: D.Hash)
    requires Session(start, postings, disk, batch, offers, nodes, held, cells, powers, hash)
    requires D.ItemStep(disk, batch, disk', batch', error, item, key, powers, hash)
    ensures Quiet(start, disk', powers, hash)
  {
    hide D.Lawful, D.BatchHolds, D.SealsOnly, D.AllUncrashed, D.AllWithinLoad, D.CleanDisk, D.Grows, D.StagedTo,
         D.OthersKept, InBatch,
      CueFile, Below, PendingHeld, Located, Given;
    D.SealsOnlyTransitive(start, disk, disk');
  }

  lemma SoundBackward(postings: seq<Node>, cells: Cells)
    requires Sound(postings, cells)
    ensures Backward(postings)
  {
  }

  lemma CellReads(postings: seq<Node>, cells: Cells, o: int)
    requires Sound(postings, cells) && o in cells
    ensures State(cells[o]).Some? && Backward(postings)
    ensures var active := State(cells[o]).value;
            && 0 < active.head <= |postings| && active.count == |History(postings, active.head)|
            && CellHistory(postings, cells, o) == History(postings, active.head)
  {
  }

  lemma OffersStep(records: seq<Record>, r: nat)
    requires r < |records|
    ensures Offers(records[..r + 1]) == Offers(records[..r]) + OffersOf(records[r])
    ensures |Offers(records[..r + 1])| <= |Offers(records)|
    ensures Offers(records[..r + 1]) == Offers(records)[..|Offers(records[..r + 1])|]
  {
    assert records[..r + 1][..r] == records[..r];
    assert records == records[..r + 1] + records[r + 1..];
    OffersConcat(records[..r + 1], records[r + 1..]);
  }

  lemma NoOffers()
    ensures forall history, cue :: PublishAll(history, EntriesFor(Offers([]), cue)) == history
  {
  }

  lemma AbandonedDisk(start: D.Disk, disk: D.Disk, postings: seq<Node>, kept: seq<Node>, cells: Cells,
      tail: seq<D.Capsule>, powers: seq<nat>, hash: D.Hash)
    requires Quiet(start, disk, powers, hash) && Sound(postings, cells) && CellsMatch(start, cells)
             && Backward(postings + kept)
    ensures var after := D.Disk(disk.chains, start.capsules + tail);
            && D.Lawful(after, powers, hash) && CellsMatch(after, cells) && Sound(postings + kept, cells)
            && (forall cue ::
                   Shown(after, postings + kept, cells, powers, hash, cue)
                   == Shown(start, postings, cells, powers, hash, cue))
            && (D.CleanDisk(start, powers) ==> D.CleanDisk(after, powers)) && D.Grows(start, after)
  {
    hide D.Lawful, HasSlot, D.SealsOnly, CellHistory, OffsetOf, D.CleanDisk;
    var after := D.Disk(disk.chains, start.capsules + tail);
    D.LostTailIsNothing(start, disk, tail, powers, hash);
    CellsStable(postings, kept, cells);
    D.SealsOnlyGrows(start, after);
    forall o ensures o in cells <==> HasSlot(after, o) {
      if HasSlot(after, o) { SealsAddNoSlot(start, after, o); }
      if o in cells { SlotsStay(start, after, o); }
    }
    forall cue ensures OffsetOf(after, powers, hash, cue) == OffsetOf(start, powers, hash, cue) {
      SealsKeepOffsetOf(start, after, powers, hash, cue);
    }
    if D.CleanDisk(start, powers) { D.SealsOnlyKeepsClean(start, after, powers, hash); }
  }

  lemma CutFiles(cues: seq<D.Capsule>, all: seq<D.Capsule>, end: nat, torn: bool, postings: seq<Node>, nodes: seq<Node>,
      more: seq<Node>, cells: Cells)
    requires cues <= all && |cues| <= end <= |all| && CueFile(all) && postings <= nodes && Backward(nodes)
    requires |more| <= |nodes| - |postings| && more == nodes[|postings|..|postings| + |more|]
    ensures CueFile(cues + (all[|cues|..end] + (if torn then [D.Torn] else []))) && Backward(postings + more)
  {
    var file := cues + (all[|cues|..end] + (if torn then [D.Torn] else []));
    forall k | 0 <= k < |file| && file[k].Whole? ensures file[k].item.id.CueId? && IsCue(file[k], file[k].item.id.cue) {
      assert file[k] == all[k];
    }
    forall k | 0 <= k < |postings + more| ensures (postings + more)[k].previous <= k {
      assert (postings + more)[k] == nodes[k];
    }
  }

  lemma SameShown(start: D.Disk, postings: seq<Node>, cells: Cells, after: D.Disk, postings': seq<Node>,
      offers: seq<Offer>, powers: seq<nat>, hash: D.Hash, cue: Cue)
    requires D.Lawful(start, powers, hash) && D.Lawful(after, powers, hash)
    requires Shown(after, postings', cells, powers, hash, cue) == Shown(start, postings, cells, powers, hash, cue)
    ensures Became(start, postings, cells, after, postings', cells, offers, powers, hash, false, cue)
  {
    hide Shown, D.Lawful;
    BecameIntro(start, postings, cells, after, postings', cells, offers, powers, hash, false, cue,
                Shown(start, postings, cells, powers, hash, cue));
  }

  lemma BecameShown(start: D.Disk, postings: seq<Node>, cells: Cells, after: D.Disk, postings': seq<Node>,
      cells': Cells, offers: seq<Offer>, powers: seq<nat>, hash: D.Hash, cue: Cue)
    requires D.Lawful(start, powers, hash) && D.Lawful(after, powers, hash)
    requires Became(start, postings, cells, after, postings', cells', offers, powers, hash, true, cue)
    requires !Hidden(start, cells, powers, hash, cue)
    ensures Shown(after, postings', cells', powers, hash, cue)
         == PublishAll(Shown(start, postings, cells, powers, hash, cue), EntriesFor(offers, cue))
  {
    hide Shown, D.Lawful, Hidden, BuiltOn;
    var history :| BuiltOn(start, postings, cells, powers, hash, cue, history) && EndsAs(history,
      Shown(after, postings', cells', powers, hash, cue), EntriesFor(offers, cue), true);
    NotHiddenBuiltOn(start, postings, cells, powers, hash, cue, history);
  }

  lemma BecamePartly(start: D.Disk, postings: seq<Node>, cells: Cells, after: D.Disk, postings': seq<Node>,
      cells': Cells, offers: seq<Offer>, powers: seq<nat>, hash: D.Hash, whole: bool, cue: Cue)
    requires D.Lawful(start, powers, hash) && D.Lawful(after, powers, hash)
    requires Became(start, postings, cells, after, postings', cells', offers, powers, hash, whole, cue)
    ensures Became(start, postings, cells, after, postings', cells', offers, powers, hash, false, cue)
  {
    hide BuiltOn, Shown, D.Lawful;
    var history :| BuiltOn(start, postings, cells, powers, hash, cue, history)
                   && EndsAs(history, Shown(after, postings', cells', powers, hash, cue), EntriesFor(offers, cue),
                        whole);
    BecameIntro(start, postings, cells, after, postings', cells', offers, powers, hash, false, cue, history);
  }

  /** A commit, whole or in part, leaves a valid directory in which every cue became what it should. */
  lemma Committed(start: D.Disk, postings: seq<Node>, cells: Cells, disk: D.Disk, batch: D.Batch, offers: seq<Offer>,
      nodes: seq<Node>, held: Held, cells': Cells, landing: int -> Landing, counted: set<(D.ChainName, nat)>,
      powers: seq<nat>, hash: D.Hash, whole: bool)
    requires Session(start, postings, disk, batch, offers, nodes, held, cells, powers, hash) && CellsMatch(start, cells)
    requires AllWritten(cells, cells', held, landing)
    requires whole ==> (forall o :: landing(o).Landed?) && counted == D.EveryLevel(batch)
    ensures var image := D.PublishDisk(disk, batch, LandedSlots(batch, landing), counted);
            && D.Lawful(image, powers, hash) && CueFile(image.capsules) && Sound(nodes, cells')
               && CellsMatch(image, cells')
            && D.Lawful(start, powers, hash)
            && (forall cue :: Became(start, postings, cells, image, nodes, cells', offers, powers, hash, whole, cue))
            && (whole && D.CleanDisk(start, powers) ==> D.CleanDisk(image, powers))
  {
    hide D.Progress, D.Lawful, D.Grows, D.BatchFits, HasSlot, LandedSlots, InBatch, CueFile, Below, PendingHeld,
         Located, Given,
      AllWritten, Sound, Became, D.CleanDisk, CellHistory, AheadAt;
    var landed := LandedSlots(batch, landing);
    var image := D.PublishDisk(disk, batch, landed, counted);
    D.PublishedDiskIsLawful(start, disk, batch, ItemsOf(offers), |offers|, landed, counted, powers, hash);
    D.ProgressFits(start, disk, batch, ItemsOf(offers), |offers|, powers, hash);
    ProgressSeals(start, disk, batch, ItemsOf(offers), |offers|, powers, hash);
    BatchInside(disk, batch, powers, hash);
    WrittenCells(nodes, held, cells, cells', landing);
    forall o ensures o in cells' <==> HasSlot(image, o) {
      ImageMatches(start, disk, batch, held, cells, cells', landing, counted, o);
    }
    StableHistories(postings, nodes, held, cells);
    if whole { WholeImage(start, disk, batch, offers, held, cells, landing, counted, powers, hash); }
    forall cue ensures Became(start, postings, cells, image, nodes, cells', offers, powers, hash, whole, cue) {
      CommitShows(start, postings, cells, D.VirtualDisk(disk, batch), image, offers, nodes, held, cells', landing,
        powers, hash, whole, cue);
    }
  }

  /** A slot a batch added heads what the batch gives its cue, and nothing else. */
  ghost predicate CellsGiven(cells: Cells, nodes: seq<Node>, cells': Cells, cues: seq<D.Capsule>, offers: seq<Offer>) {
    forall o, cue :: o in cells' && o !in cells && NamesCue(cues, o, cue) ==>
                       CellHistory(nodes, cells', o) == PublishAll([], EntriesFor(offers, cue))
  }

  /** A commit, whole or in part, grows the disk, and the slots it adds are given their own entries. */
  lemma CommitGives(start: D.Disk, postings: seq<Node>, cells: Cells, disk: D.Disk, batch: D.Batch,
      offers: seq<Offer>, nodes: seq<Node>, held: Held, cells': Cells, landing: int -> Landing,
      counted: set<(D.ChainName, nat)>, powers: seq<nat>, hash: D.Hash)
    requires Session(start, postings, disk, batch, offers, nodes, held, cells, powers, hash)
    requires AllWritten(cells, cells', held, landing)
    ensures var image := D.PublishDisk(disk, batch, LandedSlots(batch, landing), counted);
            D.Grows(start, image) && CellsGiven(cells, nodes, cells', image.capsules, offers)
  {
    hide D.Progress, D.Lawful, D.Grows, D.BatchFits, LandedSlots, InBatch, CueFile, Below, PendingHeld, Located,
         AllWritten, Sound, AheadAt;
    D.PublishedDiskIsLawful(start, disk, batch, ItemsOf(offers), |offers|, LandedSlots(batch, landing), counted, powers,
      hash);
    WrittenCells(nodes, held, cells, cells', landing);
    var image := D.PublishDisk(disk, batch, LandedSlots(batch, landing), counted);
    forall o, cue | o in cells' && o !in cells && NamesCue(image.capsules, o, cue)
      ensures CellHistory(nodes, cells', o) == PublishAll([], EntriesFor(offers, cue))
    {
      assert CueAt(disk.capsules, o) == cue && CellHistory(nodes, cells, o) == [];
    }
  }

  /** What an interrupted put left, put again: the cue answers as if the put had not been interrupted. */
  lemma RetryShows(start: D.Disk, postings: seq<Node>, cells: Cells, mid: D.Disk, left: seq<Node>, kept: Cells,
      after: D.Disk, nodes: seq<Node>, cells': Cells, offers: seq<Offer>, powers: seq<nat>, hash: D.Hash, cue: Cue)
    requires D.Lawful(start, powers, hash) && D.Lawful(mid, powers, hash) && D.Lawful(after, powers, hash)
    requires D.Grows(start, mid) && CellsMatch(start, cells) && CellsGiven(cells, left, kept, mid.capsules, offers)
    requires Became(start, postings, cells, mid, left, kept, offers, powers, hash, false, cue)
    requires Became(mid, left, kept, after, nodes, cells', offers, powers, hash, true, cue)
    requires !Hidden(start, cells, powers, hash, cue)
    requires OneShard(Shown(start, postings, cells, powers, hash, cue) + EntriesFor(offers, cue))
    ensures Recent(Shown(after, nodes, cells', powers, hash, cue))
         == Recent(Shown(start, postings, cells, powers, hash, cue) + EntriesFor(offers, cue))
  {
    hide D.Lawful, D.Grows, CellHistory, HasSlot, PublishAll, Recent, OneShard;
    var entries, history := EntriesFor(offers, cue), Shown(start, postings, cells, powers, hash, cue);
    var before :| BuiltOn(start, postings, cells, powers, hash, cue, before)
                  && EndsAs(before, Shown(mid, left, kept, powers, hash, cue), entries, false);
    NotHiddenBuiltOn(start, postings, cells, powers, hash, cue, before);
    var found :| BuiltOn(mid, left, kept, powers, hash, cue, found)
                 && EndsAs(found, Shown(after, nodes, cells', powers, hash, cue), entries, true);
    if found != Shown(mid, left, kept, powers, hash, cue) {
      if OffsetOf(start, powers, hash, cue).Some? { OffsetOfIsStable(start, mid, powers, hash, cue); }
      var o :| o in kept && NamesCue(mid.capsules, o, cue) && found == CellHistory(left, kept, o);
      NotBehind(start, cells, mid, o, powers, hash, cue);
    }
    RetryAfterCrash(history, entries, found);
  }

  lemma NotBehind(start: D.Disk, cells: Cells, mid: D.Disk, o: int, powers: seq<nat>, hash: D.Hash, cue: Cue)
    requires D.Lawful(start, powers, hash) && D.Grows(start, mid) && CellsMatch(start, cells)
    requires OffsetOf(start, powers, hash, cue) == None && !Hidden(start, cells, powers, hash, cue)
    requires NamesCue(mid.capsules, o, cue)
    ensures o !in cells
  {
    hide D.Lawful, HasSlot, D.Offset, OffsetOf;
    GrowsCapsules(start, mid);
    if o in cells { SlotIsCue(start, powers, hash, o); }
  }

  lemma ProgressSeals(start: D.Disk, disk: D.Disk, batch: D.Batch, items: seq<D.Item>, n: nat, powers: seq<nat>,
      hash: D.Hash)
    requires D.Progress(start, disk, batch, items, n, powers, hash)
    ensures D.SealsOnly(start, disk) && D.Lawful(start, powers, hash)
  {
  }

  lemma StableHistories(postings: seq<Node>, nodes: seq<Node>, held: Held, cells: Cells)
    requires postings <= nodes && Sound(postings, cells) && InBatch(nodes, held, cells)
    ensures forall o :: CellHistory(nodes, cells, o) == CellHistory(postings, cells, o)
  {
    assert nodes == postings + nodes[|postings|..];
    CellsStable(postings, nodes[|postings|..], cells);
  }

  lemma LandsAt(landing: int -> Landing, o: int)
    requires forall x :: landing(x).Landed?
    ensures landing(o).Landed?
  {
  }

  lemma WholeImage(start: D.Disk, disk: D.Disk, batch: D.Batch, offers: seq<Offer>, held: Held, cells: Cells,
      landing: int -> Landing, counted: set<(D.ChainName, nat)>, powers: seq<nat>, hash: D.Hash)
    requires D.Progress(start, disk, batch, ItemsOf(offers), |offers|, powers, hash) && PendingHeld(batch, held, cells)
    requires (forall o :: landing(o).Landed?) && counted == D.EveryLevel(batch)
    ensures D.PublishDisk(disk, batch, LandedSlots(batch, landing), counted) == D.VirtualDisk(disk, batch)
    ensures D.CleanDisk(start, powers) ==>
              D.CleanDisk(D.PublishDisk(disk, batch, LandedSlots(batch, landing), counted), powers)
  {
    hide D.Progress, D.BatchFits, D.Lawful, D.PublishDisk, D.CleanDisk, D.Grows;
    D.ProgressFits(start, disk, batch, ItemsOf(offers), |offers|, powers, hash);
    D.ProgressIsStored(start, disk, batch, ItemsOf(offers), powers, hash);
    D.PublishEverything(disk, batch, powers, hash);
    forall pair | pair in D.EverySlot(batch) ensures SlotLands(batch, pair, landing) {
      EveryPair(batch, pair.0, pair.1);
      assert batch.On(pair.0).slots[pair.1].Used?;
      LandsAt(landing, batch.On(pair.0).slots[pair.1].payload);
    }
    assert LandedSlots(batch, landing) == D.EverySlot(batch);
  }

  // ----- when a batch is refused -----

  datatype Refusal = InvalidCue | InvalidEntry | Misplaced(error: D.Error)

  /** Each offer puts its cue by itself. */
  function Singles(offers: seq<Offer>): (batches: seq<seq<D.Item>>)
    ensures |batches| == |offers|
  {
    seq(|offers|, k requires 0 <= k < |offers| => [CueItem(offers[k].cue)])
  }

  lemma SinglesMore(offers: seq<Offer>, offer: Offer)
    ensures Singles(offers + [offer]) == Singles(offers) + [[CueItem(offer.cue)]]
    ensures Singles(offers + [offer])[..|offers|] == Singles(offers)
  {
  }

  lemma SinglesWithin(offers: seq<Offer>)
    ensures P.Within(Singles(offers), ItemsOf(offers))
    ensures forall k :: 0 <= k < |offers| ==> Singles(offers)[k] == [ItemsOf(offers)[k]]
  {
    var batches, items := Singles(offers), ItemsOf(offers);
    forall k, item | 0 <= k < |batches| && item in batches[k] ensures item in items { assert items[k] == item; }
  }

  /** The batch sees what putting its cues one after the other leaves. */
  ghost predicate Viewed(start: D.Disk, disk: D.Disk, batch: D.Batch, offers: seq<Offer>, powers: seq<nat>,
      hash: D.Hash) {
    && D.Lawful(start, powers, hash) && W.Usable(powers)
    && P.StoreAll(start, Singles(offers), powers, hash) == D.Takes(D.VirtualDisk(disk, batch))
  }

  /** What a directory holds. */
  datatype Snapshot = Snapshot(disk: D.Disk, postings: seq<Node>, cells: Cells)

  /**
   Why the next offer is refused, if it is: its cue has no key, its key is another cue's or finds no room, or its entry
   is invalid and not a repetition of what is newest in the cue's slot.
   */
  ghost function Offense(start: Snapshot, before: seq<Offer>, offer: Offer, powers: seq<nat>, hash: D.Hash,
      valid: Entry -> bool): Option<Refusal>
    requires D.Lawful(start.disk, powers, hash) && W.Usable(powers)
    requires P.StoreAll(start.disk, Singles(before), powers, hash).Takes?
  {
    match hash(D.CueId(offer.cue))
    case None => Some(InvalidCue)
    case Some(key) =>
      var disk := P.StoreAll(start.disk, Singles(before), powers, hash).disk;
      match D.PlaceOne(disk, CueItem(offer.cue), key, powers, hash)
      case Refuses(error) => Some(Misplaced(error))
      case Takes(view) =>
        if valid(offer.entry) || Repeats(Newest(start, view, before, offer.cue, powers, hash), offer.entry) then None
        else Some(InvalidEntry)
  }

  /** The history of the cue's slot with the entries of the offers before. */
  ghost function Newest(start: Snapshot, view: D.Disk, before: seq<Offer>, cue: Cue, powers: seq<nat>, hash: D.Hash)
    : seq<Entry>
    requires D.Lawful(view, powers, hash)
  {
    match OffsetOf(view, powers, hash, cue)
    case None => []
    case Some(o) => PublishAll(CellHistory(start.postings, start.cells, o), EntriesFor(before, cue))
  }

  lemma NothingStoredYet(start: D.Disk, powers: seq<nat>, hash: D.Hash)
    requires D.Lawful(start, powers, hash) && W.Usable(powers)
    ensures P.StoreAll(start, Singles([]), powers, hash) == D.Takes(start)
  {
    hide D.Lawful;
  }

  /** The first refusal of a batch. */
  ghost function FirstOffense(start: Snapshot, offers: seq<Offer>, powers: seq<nat>, hash: D.Hash,
      valid: Entry -> bool): (offense: Option<Refusal>)
    requires D.Lawful(start.disk, powers, hash) && W.Usable(powers)
    ensures offense.None? ==> P.StoreAll(start.disk, Singles(offers), powers, hash).Takes?
  {
    if offers == [] then
      NothingStoredYet(start.disk, powers, hash);
      None
    else
      var init, last := offers[..|offers| - 1], offers[|offers| - 1];
      match FirstOffense(start, init, powers, hash, valid)
      case Some(refusal) => Some(refusal)
      case None =>
        OffenseOrStored(start, offers, powers, hash, valid);
        Offense(start, init, last, powers, hash, valid)
  }

  /** One more cue put. */
  lemma StoresNext(start: D.Disk, offers: seq<Offer>, offer: Offer, powers: seq<nat>, hash: D.Hash)
    requires D.Lawful(start, powers, hash) && W.Usable(powers)
    requires P.StoreAll(start, Singles(offers), powers, hash).Takes?
    ensures var view := P.StoreAll(start, Singles(offers), powers, hash).disk;
            P.StoreAll(start, Singles(offers + [offer]), powers, hash)
            == match hash(D.CueId(offer.cue))
               case None => D.Refuses(D.InvalidIdentity)
               case Some(key) => D.PlaceOne(view, CueItem(offer.cue), key, powers, hash)
  {
    hide D.Lawful, D.PlaceOne, Singles;
    SinglesMore(offers, offer);
    var view := P.StoreAll(start, Singles(offers), powers, hash).disk;
    StageOneCue(view, CueItem(offer.cue), powers, hash);
  }

  lemma StageOneCue(view: D.Disk, item: D.Item, powers: seq<nat>, hash: D.Hash)
    requires D.Lawful(view, powers, hash) && W.Usable(powers)
    ensures match D.StageAll(view, [item], powers, hash)
            case Fails(error) =>
              (match hash(item.id)
               case None => error == D.InvalidIdentity
               case Some(key) => D.PlaceOne(view, item, key, powers, hash) == D.Refuses(error))
            case Kept(after, _) =>
              hash(item.id).Some? && D.PlaceOne(view, item, hash(item.id).value, powers, hash) == D.Takes(after)
  {
    hide D.Lawful, D.PlaceOne;
    assert [item][..0] == [];
    var empty: seq<D.Item> := [];
    assert D.StageAll(view, empty, powers, hash) == D.Kept(view, map[]);
  }

  lemma OffenseOrStored(start: Snapshot, offers: seq<Offer>, powers: seq<nat>, hash: D.Hash, valid: Entry -> bool)
    requires D.Lawful(start.disk, powers, hash) && W.Usable(powers) && offers != []
    requires P.StoreAll(start.disk, Singles(offers[..|offers| - 1]), powers, hash).Takes?
    ensures Offense(start, offers[..|offers| - 1], offers[|offers| - 1], powers, hash, valid).None? ==>
              P.StoreAll(start.disk, Singles(offers), powers, hash).Takes?
  {
    hide D.Lawful, D.PlaceOne, Singles, P.StoreAll, Newest, Repeats;
    StoresNext(start.disk, offers[..|offers| - 1], offers[|offers| - 1], powers, hash);
    assert offers[..|offers| - 1] + [offers[|offers| - 1]] == offers;
  }

  lemma {:induction false} OffenseStays(start: Snapshot, offers: seq<Offer>, n: nat, m: nat, powers: seq<nat>,
      hash: D.Hash, valid: Entry -> bool)
    requires D.Lawful(start.disk, powers, hash) && W.Usable(powers) && n <= m <= |offers|
    requires FirstOffense(start, offers[..n], powers, hash, valid).Some?
    ensures FirstOffense(start, offers[..m], powers, hash, valid)
         == FirstOffense(start, offers[..n], powers, hash, valid)
    decreases m
  {
    hide D.Lawful, Offense, Singles, P.StoreAll;
    if n < m {
      OffenseStays(start, offers, n, m - 1, powers, hash, valid);
      assert offers[..m][..m - 1] == offers[..m - 1];
    }
  }

  lemma OffenseNext(start: Snapshot, offers: seq<Offer>, n: nat, powers: seq<nat>, hash: D.Hash, valid: Entry -> bool)
    requires D.Lawful(start.disk, powers, hash) && W.Usable(powers) && n < |offers|
    requires FirstOffense(start, offers[..n], powers, hash, valid).None?
    ensures FirstOffense(start, offers[..n + 1], powers, hash, valid)
         == Offense(start, offers[..n], offers[n], powers, hash, valid)
  {
    hide D.Lawful, Offense, Singles, P.StoreAll;
    assert offers[..n + 1][..n] == offers[..n];
  }

  /** A cue is misplaced exactly when another cue has its key, or nobody has and its prefix has no room. */
  lemma MisplacedExactly(start: Snapshot, before: seq<Offer>, offer: Offer, key: T.Key, powers: seq<nat>, hash: D.Hash,
      valid: Entry -> bool)
    requires D.Lawful(start.disk, powers, hash) && W.Usable(powers)
    requires P.StoreAll(start.disk, Singles(before), powers, hash).Takes? && hash(D.CueId(offer.cue)) == Some(key)
    ensures var view := P.StoreAll(start.disk, Singles(before), powers, hash).disk;
            var held := D.Lookup(view, powers, hash, D.Cues, key);
            var offense := Offense(start, before, offer, powers, hash, valid);
            && (offense == Some(Misplaced(D.HashCollision)) <==> held.Some? && held.value != CueItem(offer.cue))
            && (offense == Some(Misplaced(D.CapacityExceeded))
                <==> held.None? && P.RoomFor(view, D.NameOf(D.Cues, key), powers) == 0)
            && (offense.Some? && offense.value.Misplaced? ==>
                  offense.value.error in {D.HashCollision, D.CapacityExceeded})
  {
    hide D.Lawful, D.PlaceOne, D.Lookup, P.StoreAll, P.RoomFor, Newest, Repeats;
    P.RefusedExactly(P.StoreAll(start.disk, Singles(before), powers, hash).disk, CueItem(offer.cue), key, powers, hash);
  }

  /** The batch's state of a slot is the history its cue would be given. */
  lemma AheadIsNewest(start: D.Disk, postings: seq<Node>, disk: D.Disk, batch: D.Batch, offers: seq<Offer>,
      nodes: seq<Node>, held: Held, cells: Cells, disk': D.Disk, batch': D.Batch, o: int, offer: Offer, key: T.Key,
      powers: seq<nat>, hash: D.Hash)
    requires Session(start, postings, disk, batch, offers, nodes, held, cells, powers, hash)
    requires hash(D.CueId(offer.cue)) == Some(key)
    requires D.ItemStep(disk, batch, disk', batch', None, CueItem(offer.cue), key, powers, hash)
    requires D.PlacedAt(disk, batch, disk', batch', o, CueItem(offer.cue), key, powers, hash)
    ensures D.Lawful(D.VirtualDisk(disk', batch'), powers, hash)
    ensures Newest(Snapshot(start, postings, cells), D.VirtualDisk(disk', batch'), offers, offer.cue, powers, hash)
         == AheadAt(nodes, held, cells, o)
  {
    hide D.Progress, D.ItemStep, D.PlacedAt, D.Lawful, D.Grows, InBatch, CueFile, Below, PendingHeld, CueAt, OffsetOf,
         D.VirtualDisk, CellHistory, History, Offered;
    var view, view' := D.VirtualDisk(disk, batch), D.VirtualDisk(disk', batch');
    ViewFacts(disk, batch, disk', batch', offer.cue, key, o, powers, hash);
    StableHistories(postings, nodes, held, cells);
    if o in held {
      OffsetNames(view, view', offers, held, o, offer.cue, powers, hash);
    } else {
      if Offered(offers, offer.cue) { OffsetOfIsStable(view, view', powers, hash, offer.cue); }
      NotOffered(offers, offer.cue);
      PublishOneMore(CellHistory(postings, cells, o), [], offer.entry);
    }
  }

  lemma StartViewed(start: Snapshot, powers: seq<nat>, hash: D.Hash, valid: Entry -> bool)
    requires D.Lawful(start.disk, powers, hash) && W.Usable(powers)
    ensures Viewed(start.disk, start.disk, D.NO_BATCH, Offers([]), powers, hash)
    ensures FirstOffense(start, Offers([]), powers, hash, valid) == None
  {
    hide D.Lawful, D.Virtual;
    NothingStoredYet(start.disk, powers, hash);
    forall name | name in start.disk.chains
      ensures D.Virtual(start.disk.chains[name], D.NO_BATCH.On(name)) == start.disk.chains[name]
    {
      D.NothingIsVirtual(start.disk.chains[name]);
    }
  }

  lemma NextOffer(all: seq<Offer>, done: seq<Offer>, mine: seq<Offer>, k: nat)
    requires k < |mine| && |done| + |mine| <= |all| && all[..|done| + |mine|] == done + mine
    ensures |done| + k < |all| && all[..|done| + k] == done + mine[..k] && all[|done| + k] == mine[k]
    ensures all[..|done| + k + 1] == done + mine[..k + 1] == done + mine[..k] + [mine[k]] && all[..|all|] == all
  {
    var whole := done + mine;
    assert all[..|done| + k] == whole[..|done| + k];
    assert all[..|done| + k + 1] == whole[..|done| + k + 1];
    assert all[|done| + k] == whole[|done| + k];
  }

  /** An offer whose cue could not be put. */
  lemma MisplacedHere(start: Snapshot, disk: D.Disk, batch: D.Batch, disk': D.Disk, batch': D.Batch,
      offers: seq<Offer>, offer: Offer, key: T.Key, error: D.Error, powers: seq<nat>, hash: D.Hash,
      valid: Entry -> bool)
    requires Viewed(start.disk, disk, batch, offers, powers, hash) && hash(D.CueId(offer.cue)) == Some(key)
    requires D.PlacedLike(disk, batch, disk', batch', Some(error), CueItem(offer.cue), key, powers, hash)
    ensures Offense(start, offers, offer, powers, hash, valid) == Some(Misplaced(error))
  {
    hide D.Lawful, D.PlaceOne, P.StoreAll, Newest, D.VirtualDisk, Singles;
  }

  /** An offer whose cue was put. */
  lemma PlacedHere(start: Snapshot, disk: D.Disk, batch: D.Batch, disk': D.Disk, batch': D.Batch,
      offers: seq<Offer>, offer: Offer, key: T.Key, newest: seq<Entry>, powers: seq<nat>, hash: D.Hash,
      valid: Entry -> bool)
    requires Viewed(start.disk, disk, batch, offers, powers, hash) && hash(D.CueId(offer.cue)) == Some(key)
    requires D.PlacedLike(disk, batch, disk', batch', None, CueItem(offer.cue), key, powers, hash)
    requires D.Lawful(D.VirtualDisk(disk', batch'), powers, hash)
    requires Newest(start, D.VirtualDisk(disk', batch'), offers, offer.cue, powers, hash) == newest
    ensures Offense(start, offers, offer, powers, hash, valid)
         == if valid(offer.entry) || Repeats(newest, offer.entry) then None else Some(InvalidEntry)
    ensures Viewed(start.disk, disk', batch', offers + [offer], powers, hash)
  {
    hide D.Lawful, D.PlaceOne, P.StoreAll, Newest, D.VirtualDisk, Singles, Repeats;
    StoresNext(start.disk, offers, offer, powers, hash);
  }

  /** What putting a batch's cues leaves, cut by a crash that let through the slots in `landed`. */
  ghost predicate CutFrom(start: D.Disk, image: D.Disk, offers: seq<Offer>, landed: set<(D.ChainName, D.Address)>,
      powers: seq<nat>, hash: D.Hash) {
    && D.Lawful(start, powers, hash) && W.Usable(powers)
    && P.StoreAll(start, Singles(offers), powers, hash).Takes?
    && D.CrashOf(start, P.StoreAll(start, Singles(offers), powers, hash).disk, image, landed)
  }

  lemma CutEarly(start: D.Disk, postings: seq<Node>, disk: D.Disk, batch: D.Batch, offers: seq<Offer>,
      nodes: seq<Node>, held: Held, cells: Cells, tail: seq<D.Capsule>, powers: seq<nat>, hash: D.Hash)
    requires Session(start, postings, disk, batch, offers, nodes, held, cells, powers, hash)
    requires Viewed(start, disk, batch, offers, powers, hash)
    ensures CutFrom(start, D.Disk(disk.chains, start.capsules + tail), offers, {}, powers, hash)
  {
    hide D.Progress, D.Lawful, D.CrashOf, P.StoreAll, D.VirtualDisk, InBatch, CueFile, Below, PendingHeld, Given,
         Located;
    D.StagedDiskIsCrash(start, disk, batch, ItemsOf(offers), |offers|, tail, powers, hash);
  }

  lemma CutLate(start: D.Disk, postings: seq<Node>, disk: D.Disk, batch: D.Batch, offers: seq<Offer>,
      nodes: seq<Node>, held: Held, cells: Cells, landed: set<(D.ChainName, D.Address)>,
      counted: set<(D.ChainName, nat)>, powers: seq<nat>, hash: D.Hash)
    requires Session(start, postings, disk, batch, offers, nodes, held, cells, powers, hash)
    requires Viewed(start, disk, batch, offers, powers, hash)
    ensures CutFrom(start, D.PublishDisk(disk, batch, landed, counted), offers, landed, powers, hash)
  {
    hide D.Progress, D.Lawful, D.CrashOf, P.StoreAll, D.VirtualDisk, InBatch, CueFile, Below, PendingHeld, Given,
         Located;
    D.PublishedDiskIsCrash(start, disk, batch, ItemsOf(offers), |offers|, landed, counted, powers, hash);
  }

  // ----- the directory -----

  /** How a batch ends: written out, or cut short before or while its slots are written. */
  datatype Fate =
    | Completes
    | CrashesEarly(cues: nat, torn: bool, kept: nat)
    | CrashesLate(landing: int -> Landing, counted: set<(D.ChainName, nat)>)

  datatype Outcome = Added(nodes: nat) | Rejected(refusal: Refusal) | Interrupted

  datatype Answer = Matches(entries: seq<Entry>) | Collision | Invalid | HeadInvalid | CountInvalid

  const EVERY_WRITE: int -> Landing := _ => Landed

  lemma ViewStored(start: D.Disk, disk: D.Disk, batch: D.Batch, offers: seq<Offer>, powers: seq<nat>, hash: D.Hash)
    requires Viewed(start, disk, batch, offers, powers, hash)
    ensures D.Lawful(start, powers, hash) && W.Usable(powers)
    ensures P.StoreAll(start, Singles(offers), powers, hash) == D.Takes(D.VirtualDisk(disk, batch))
  {
  }

  lemma CommitIsView(start: D.Disk, postings: seq<Node>, disk: D.Disk, batch: D.Batch, offers: seq<Offer>,
      nodes: seq<Node>, held: Held, cells: Cells, landing: int -> Landing, counted: set<(D.ChainName, nat)>,
      powers: seq<nat>, hash: D.Hash)
    requires Session(start, postings, disk, batch, offers, nodes, held, cells, powers, hash)
    requires (forall o :: landing(o).Landed?) && counted == D.EveryLevel(batch)
    ensures D.PublishDisk(disk, batch, LandedSlots(batch, landing), counted) == D.VirtualDisk(disk, batch)
  {
    hide D.Progress, D.Lawful, D.PublishDisk, D.VirtualDisk, D.CleanDisk, LandedSlots, PendingHeld, Given, Located,
         InBatch, CueFile, Below;
    WholeImage(start, disk, batch, offers, held, cells, landing, counted, powers, hash);
  }

  /** No new slots, nothing given. */
  lemma GivesNothing(cells: Cells, postings: seq<Node>, cues: seq<D.Capsule>, offers: seq<Offer>)
    ensures CellsGiven(cells, postings, cells, cues, offers)
  {
  }

  ghost predicate AllValid(offers: seq<Offer>, valid: Entry -> bool) {
    forall k :: 0 <= k < |offers| ==> valid(offers[k].entry)
  }

  /** With valid entries a batch is refused exactly as its cues are. */
  lemma {:induction false} ValidOffense(start: Snapshot, offers: seq<Offer>, powers: seq<nat>, hash: D.Hash,
      valid: Entry -> bool)
    requires D.Lawful(start.disk, powers, hash) && W.Usable(powers) && AllValid(offers, valid)
    ensures FirstOffense(start, offers, powers, hash, valid)
         == match P.StoreAll(start.disk, Singles(offers), powers, hash)
            case Takes(_) => None
            case Refuses(error) => if error == D.InvalidIdentity then Some(InvalidCue) else Some(Misplaced(error))
  {
    hide D.Lawful, Singles, D.PlaceOne, Newest, Repeats;
    if offers == [] {
      NothingStoredYet(start.disk, powers, hash);
    } else {
      var init, last := offers[..|offers| - 1], offers[|offers| - 1];
      assert init + [last] == offers;
      ValidOffense(start, init, powers, hash, valid);
      SinglesMore(init, last);
      if P.StoreAll(start.disk, Singles(init), powers, hash).Takes? {
        StoresNext(start.disk, init, last, powers, hash);
        RefusedForPlace(start.disk, init, last, powers, hash);
      }
    }
  }

  lemma RefusedForPlace(start: D.Disk, before: seq<Offer>, offer: Offer, powers: seq<nat>, hash: D.Hash)
    requires D.Lawful(start, powers, hash) && W.Usable(powers)
    requires P.StoreAll(start, Singles(before), powers, hash).Takes?
    ensures hash(D.CueId(offer.cue)).Some? ==>
              var view := P.StoreAll(start, Singles(before), powers, hash).disk;
              D.PlaceOne(view, CueItem(offer.cue), hash(D.CueId(offer.cue)).value, powers, hash)
              != D.Refuses(D.InvalidIdentity)
  {
    hide D.Lawful, Singles, D.PlaceOne, P.StoreAll, D.Lookup, P.RoomFor;
    if hash(D.CueId(offer.cue)).Some? {
      P.RefusedExactly(P.StoreAll(start, Singles(before), powers, hash).disk, CueItem(offer.cue),
        hash(D.CueId(offer.cue)).value, powers, hash);
    }
  }

  /** The same batch on what an interrupted or a finished put of it left. */
  lemma SecondOffense(start: D.Disk, left: Snapshot, offers: seq<Offer>, landed: set<(D.ChainName, D.Address)>,
      finished: bool, powers: seq<nat>, hash: D.Hash, valid: Entry -> bool)
    requires CutFrom(start, left.disk, offers, landed, powers, hash) && D.Lawful(left.disk, powers, hash)
    requires D.Grows(start, left.disk) && AllValid(offers, valid) && P.Agrees(start, ItemsOf(offers), hash)
    requires finished ==> P.StoreAll(start, Singles(offers), powers, hash) == D.Takes(left.disk)
    ensures W.Usable(powers)
    ensures match FirstOffense(left, offers, powers, hash, valid)
            case None => true
            case Some(refusal) =>
              && refusal == Misplaced(D.CapacityExceeded) && !finished
              && !P.HasRoomFor(start, ItemsOf(offers), 2, powers, hash)
  {
    hide D.Lawful, D.Grows, P.StoreAll, Singles, ItemsOf, P.Agrees, P.HasRoomFor, P.HasRoom, P.Onward, D.CrashOf,
         P.TookNoMore, FirstOffense, AllValid, P.CostsUpTo, P.Missing, P.RoomFor;
    var items := ItemsOf(offers);
    var view := P.StoreAll(start, Singles(offers), powers, hash).disk;
    SinglesWithin(offers);
    P.StoreKeeps(start, Singles(offers), items, powers, hash);
    OnwardGrows(start, view, items, powers, hash);
    P.CutTakesNoMore(start, start, view, left.disk, landed, items, powers, hash);
    P.NoTriesYet(start, items, powers, hash);
    P.CostsOneMore(start, start, left.disk, items, 0, powers, hash);
    P.CallSuffices(left.disk, Singles(offers), items, powers, hash);
    ValidOffense(left, offers, powers, hash, valid);
    if P.HasRoomFor(start, items, 2, powers, hash) { P.RoomIsLeft(start, left.disk, items, 1, 2, powers, hash); }
    if finished { FinishedHasRoom(start, left.disk, offers, powers, hash); }
  }

  lemma OnwardGrows(start: D.Disk, now: D.Disk, all: seq<D.Item>, powers: seq<nat>, hash: D.Hash)
    requires P.Onward(start, now, all, powers, hash)
    ensures D.Grows(start, now) && D.Lawful(start, powers, hash) && D.Lawful(now, powers, hash)
  {
    hide D.Grows, D.Lawful, P.Agrees;
  }

  /** What was put whole misses nothing. */
  lemma FinishedHasRoom(start: D.Disk, now: D.Disk, offers: seq<Offer>, powers: seq<nat>, hash: D.Hash)
    requires D.Lawful(start, powers, hash) && D.Lawful(now, powers, hash) && W.Usable(powers)
    requires P.StoreAll(start, Singles(offers), powers, hash) == D.Takes(now)
    ensures P.HasRoom(now, ItemsOf(offers), powers, hash)
  {
    hide D.Lawful, P.StoreAll, Singles, ItemsOf, D.Lookup, P.KeysOf, P.RoomFor;
    var items := ItemsOf(offers);
    SinglesWithin(offers);
    forall name ensures P.Missing(now, items, name, powers, hash) == {} {
      forall key | key in P.KeysOf(items, name, hash) ensures D.Lookup(now, powers, hash, name.space, key).Some? {
        var j := P.ChainOfKey(items, name, key, hash);
        SingleKey(offers, j, name, key, hash);
        P.StoredHasSlots(start, Singles(offers), name, key, j, powers, hash);
      }
    }
  }

  lemma SingleKey(offers: seq<Offer>, j: nat, name: D.ChainName, key: T.Key, hash: D.Hash)
    requires j < |offers| && hash(ItemsOf(offers)[j].id) == Some(key)
             && D.NameOf(ItemsOf(offers)[j].id.Space(), key) == name
    ensures key in P.KeysOf(Singles(offers)[j], name, hash)
  {
    P.KeyIn(Singles(offers)[j], 0, name, hash);
  }

  /** A batch that ran to its end was added or rejected as it must be. */
  ghost predicate Judged(before: Snapshot, records: seq<Record>, outcome: Outcome, after: Snapshot, powers: seq<nat>,
      hash: D.Hash, valid: Entry -> bool) {
    && D.Lawful(before.disk, powers, hash) && W.Usable(powers)
    && match FirstOffense(before, Offers(records), powers, hash, valid)
       case Some(refusal) => outcome == Rejected(refusal)
       case None =>
         && outcome.Added? && |after.postings| == |before.postings| + outcome.nodes
         && P.StoreAll(before.disk, Singles(Offers(records)), powers, hash) == D.Takes(after.disk)
  }

  lemma JudgedNow(before: Snapshot, records: seq<Record>, outcome: Outcome, after: Snapshot, powers: seq<nat>,
      hash: D.Hash, valid: Entry -> bool)
    requires D.Lawful(before.disk, powers, hash) && W.Usable(powers) && |before.postings| <= |after.postings|
    requires outcome == match FirstOffense(before, Offers(records), powers, hash, valid)
                        case Some(refusal) => Rejected(refusal)
                        case None => Added(|after.postings| - |before.postings|)
    requires outcome.Added? ==>
               P.StoreAll(before.disk, Singles(Offers(records)), powers, hash) == D.Takes(after.disk)
    ensures Judged(before, records, outcome, after, powers, hash, valid)
  {
    hide D.Lawful, FirstOffense, P.StoreAll, Singles, Offers;
  }

  /** The records of the batches that were added, in order. */
  function AddedOf(batches: seq<seq<Record>>, outcomes: seq<Outcome>): seq<Record>
    requires |outcomes| == |batches|
  {
    if batches == [] then []
    else
      var n := |batches| - 1;
      AddedOf(batches[..n], outcomes[..n]) + if outcomes[n].Added? then batches[n] else []
  }

  lemma NothingAdded(batches: seq<seq<Record>>)
    ensures batches[..0] == [] && AddedOf([], []) == []
    ensures forall history, cue :: PublishAll(history, EntriesFor(Offers([]), cue)) == history
  {
    NoOffers();
  }

  lemma AddedNext(batches: seq<seq<Record>>, outcomes: seq<Outcome>, outcome: Outcome, i: nat)
    requires i < |batches| && |outcomes| == i
    ensures AddedOf(batches[..i + 1], outcomes + [outcome])
         == AddedOf(batches[..i], outcomes) + if outcome.Added? then batches[i] else []
  {
    assert batches[..i + 1][..i] == batches[..i] && (outcomes + [outcome])[..i] == outcomes;
  }

  class CueShardDirectory {
    const powers: seq<nat>
    const hash: D.Hash
    const valid: Entry -> bool
    var chains: map<D.ChainName, T.Chain<int>>
    var cues: seq<D.Capsule>
    var cells: Cells
    var postings: seq<Node>

    ghost function Image(): D.Disk reads this { D.Disk(chains, cues) }

    ghost predicate Configured() { W.Usable(powers) }

    ghost function Holds(): Snapshot reads this { Snapshot(Image(), postings, cells) }

    ghost predicate Valid() reads this {
      && Configured() && D.Lawful(Image(), powers, hash) && CueFile(cues)
      && Sound(postings, cells) && CellsMatch(Image(), cells)
    }

    ghost function Published(cue: Cue): seq<Entry>
      requires Valid()
      reads this
    {
      Shown(Image(), postings, cells, powers, hash, cue)
    }

    ghost predicate IsHidden(cue: Cue)
      requires Valid()
      reads this
    {
      Hidden(Image(), cells, powers, hash, cue)
    }

    constructor (powers: seq<nat>, hash: D.Hash, valid: Entry -> bool)
      requires W.Usable(powers)
      ensures Valid() && this.powers == powers && this.hash == hash && this.valid == valid
      ensures D.CleanDisk(Image(), powers) && forall cue :: Published(cue) == []
    {
      this.powers, this.hash, this.valid := powers, hash, valid;
      chains, cues, cells, postings := map[], [], map[], [];
    }

    /** `_matches_for_locked`: walk exactly `count` nodes from the active head. */
    method MatchesFor(cue: Cue) returns (answer: Answer)
      requires Valid()
      ensures answer == match hash(D.CueId(cue))
              case None => Invalid
              case Some(key) =>
                if D.Offset(Image(), powers, hash, D.Cues, key).Some? && OffsetOf(Image(), powers, hash, cue) == None
                   then Collision
                else Matches(Recent(Published(cue)))
    {
      hide D.Lawful, Readable, HasSlot;
      match hash(D.CueId(cue))
      case None => return Invalid;
      case Some(key) =>
        var offset := D.FindItem(D.Disk(chains, cues), powers, hash, D.Cues, key);
        if offset.None? { return Matches(Distinct(Reversed([]))); }
        var o := offset.value;
        if cues[o] != D.Whole(CueItem(cue)) { return Collision; }
        OffsetHasSlot(Image(), powers, hash, cue);
        CellReads(postings, cells, o);
        var state := State(cells[o]);
        if state.None? { return HeadInvalid; }
        var matches, end := WalkChain(postings, state.value.head, state.value.count);
        if |matches| != state.value.count || end != 0 { return CountInvalid; }
        return Matches(Distinct(matches));
    }

    /** One cue of one record: its slot, then its node. */
    method StageOffer(offer: Offer, ghost offers: seq<Offer>, ghost start: D.Disk, disk: D.Disk, batch: D.Batch,
        nodes: seq<Node>, held: Held)
      returns (disk': D.Disk, batch': D.Batch, nodes': seq<Node>, held': Held, refusal: Option<Refusal>)
      requires Configured() && Session(start, postings, disk, batch, offers, nodes, held, cells, powers, hash)
               && CellsMatch(start, cells) && Viewed(start, disk, batch, offers, powers, hash)
      ensures refusal == Offense(Snapshot(start, postings, cells), offers, offer, powers, hash, valid)
      ensures refusal == None ==>
                && Session(start, postings, disk', batch', offers + [offer], nodes', held', cells, powers, hash)
                && Viewed(start, disk', batch', offers + [offer], powers, hash)
      ensures refusal.Some? ==> Quiet(start, disk', powers, hash)
    {
      hide Session, CellsMatch, D.ItemStep, D.PlacedAt, D.PlacedLike, D.BatchHolds, InBatch, OfferedAt, Quiet, Repeats,
           AheadAt, Singles, P.StoreAll, D.PlaceOne, D.Lawful, D.VirtualDisk, Newest;
      ghost var from := Snapshot(start, postings, cells);
      disk', batch', nodes', held' := disk, batch, nodes, held;
      SessionFacts(start, postings, disk, batch, offers, nodes, held, cells, powers, hash);
      match hash(D.CueId(offer.cue))
      case None => refusal := Some(InvalidCue);
      case Some(key) =>
        var o, error;
        disk', batch', o, error := D.PlaceItem(disk, CueItem(offer.cue), key, batch, powers, hash);
        StepQuiet(start, postings, disk, batch, disk', batch', offers, nodes, held, cells, error, CueItem(offer.cue),
          key, powers, hash);
        if error.Some? {
          MisplacedHere(from, disk, batch, disk', batch', offers, offer, key, error.value, powers, hash, valid);
          refusal := Some(Misplaced(error.value));
          return;
        }
        AheadIsNewest(start, postings, disk, batch, offers, nodes, held, cells, disk', batch', o, offer, key, powers,
          hash);
        PlacedHere(from, disk, batch, disk', batch', offers, offer, key, AheadAt(nodes, held, cells, o), powers, hash,
          valid);
        var refused;
        nodes', held', refused := OfferAt(o, offer.entry, nodes, held, cells, valid);
        if refused {
          refusal := Some(InvalidEntry);
          return;
        }
        SessionStep(start, postings, disk, batch, offers, nodes, held, cells, disk', batch', o, offer, key, nodes',
          held', powers, hash);
        refusal := None;
    }

    /** The staging loop of `put_records`: every record's cues, each once. */
    method StageRecords(records: seq<Record>)
      returns (disk: D.Disk, batch: D.Batch, nodes: seq<Node>, held: Held, refusal: Option<Refusal>)
      requires Valid()
      ensures refusal == FirstOffense(Holds(), Offers(records), powers, hash, valid)
      ensures refusal == None ==>
                && Session(Image(), postings, disk, batch, Offers(records), nodes, held, cells, powers, hash)
                && Viewed(Image(), disk, batch, Offers(records), powers, hash)
      ensures refusal.Some? ==> Quiet(Image(), disk, powers, hash)
    {
      hide Session, D.Lawful, CellsMatch, Sound, CueFile, OffersOf, Quiet, Viewed, FirstOffense, Offense, P.StoreAll,
           Singles;
      disk, batch, nodes, held, refusal := D.Disk(chains, cues), D.NO_BATCH, postings, map[], None;
      SessionStart(Image(), postings, cells, powers, hash);
      StartViewed(Holds(), powers, hash, valid);
      ghost var all := Offers(records);
      for r := 0 to |records|
        invariant Session(Image(), postings, disk, batch, Offers(records[..r]), nodes, held, cells, powers, hash)
        invariant Viewed(Image(), disk, batch, Offers(records[..r]), powers, hash) && refusal == None
        invariant FirstOffense(Holds(), Offers(records[..r]), powers, hash, valid) == None
      {
        var mine := OffersOf(records[r]);
        ghost var done := Offers(records[..r]);
        OffersStep(records, r);
        assert done + mine[..0] == done;
        for k := 0 to |mine|
          invariant Session(Image(), postings, disk, batch, done + mine[..k], nodes, held, cells, powers, hash)
          invariant Viewed(Image(), disk, batch, done + mine[..k], powers, hash) && refusal == None
          invariant FirstOffense(Holds(), done + mine[..k], powers, hash, valid) == None
        {
          NextOffer(all, done, mine, k);
          OffenseNext(Holds(), all, |done| + k, powers, hash, valid);
          disk, batch, nodes, held, refusal := StageOffer(mine[k], done + mine[..k], Image(), disk, batch, nodes, held);
          if refusal.Some? {
            OffenseStays(Holds(), all, |done| + k + 1, |all|, powers, hash, valid);
            return;
          }
        }
        assert mine[..|mine|] == mine;
      }
      assert records[..|records|] == records;
    }

    /** A batch that stops before its commit: seals stay, and perhaps cues and nodes nobody refers to. */
    method Abandon(disk: D.Disk, tail: seq<D.Capsule>, kept: seq<Node>)
      requires Valid() && Quiet(Image(), disk, powers, hash) && CueFile(cues + tail) && Backward(postings + kept)
      modifies this
      ensures Valid() && postings == old(postings) + kept && cells == old(cells)
      ensures Image() == D.Disk(disk.chains, old(cues) + tail)
      ensures forall cue :: Published(cue) == old(Published(cue))
      ensures D.CleanDisk(old(Image()), powers) ==> D.CleanDisk(Image(), powers)
      ensures D.Grows(old(Image()), Image())
    {
      hide Sound, CueFile, D.Lawful, D.CleanDisk, CellsMatch, Quiet, Shown;
      AbandonedDisk(Image(), disk, postings, kept, cells, tail, powers, hash);
      chains, cues, postings := disk.chains, cues + tail, postings + kept;
    }

    /** Slots, copies and level states are written, each meeting its fate. */
    method Commit(disk: D.Disk, batch: D.Batch, ghost offers: seq<Offer>, nodes: seq<Node>, held: Held,
        landing: int -> Landing, counted: set<(D.ChainName, nat)>, ghost whole: bool)
      requires Valid() && Session(Image(), postings, disk, batch, offers, nodes, held, cells, powers, hash)
      requires whole ==> (forall o :: landing(o).Landed?) && counted == D.EveryLevel(batch)
      modifies this
      ensures Valid() && postings == nodes && old(postings) <= nodes
      ensures Image() == D.PublishDisk(disk, batch, LandedSlots(batch, landing), counted)
      ensures whole ==> Image() == D.VirtualDisk(disk, batch)
      ensures forall cue ::
        Became(old(Image()), old(postings), old(cells), Image(), postings, cells, offers, powers, hash, whole, cue)
      ensures whole && D.CleanDisk(old(Image()), powers) ==> D.CleanDisk(Image(), powers)
      ensures D.Grows(old(Image()), Image()) && CellsGiven(old(cells), postings, cells, cues, offers)
    {
      hide Session, Sound, CueFile, D.Lawful, D.CleanDisk, CellsMatch, Became, D.PublishDisk, LandedSlots, AllWritten,
           D.VirtualDisk, CellsGiven, D.Grows;
      SessionFacts(Image(), postings, disk, batch, offers, nodes, held, cells, powers, hash);
      var image := D.PublishChains(disk, batch, LandedSlots(batch, landing), counted);
      var written := WriteCells(cells, held, landing);
      Committed(Image(), postings, cells, disk, batch, offers, nodes, held, written, landing, counted, powers, hash,
        whole);
      CommitGives(Image(), postings, cells, disk, batch, offers, nodes, held, written, landing, counted, powers, hash);
      if whole {
        CommitIsView(Image(), postings, disk, batch, offers, nodes, held, cells, landing, counted, powers, hash);
      }
      chains, cues, postings, cells := image.chains, image.capsules, nodes, written;
    }

    /**
     `put_records`. A batch is rejected exactly for its first offense and then changes no answer. A completed one adds
     its entries, in order, for every cue; an interrupted one leaves each cue with or without them. What the entries
     are added to is what was shown before, except that a cue hidden by an earlier crash may come back with what one of
     its slots holds.
     */
    method PutRecords(records: seq<Record>, fate: Fate) returns (outcome: Outcome)
      requires Valid()
      modifies this
      ensures Valid() && old(postings) <= postings
      ensures outcome == match FirstOffense(old(Holds()), Offers(records), powers, hash, valid)
                         case Some(refusal) => Rejected(refusal)
                         case None => if fate.Completes? then Added(|postings| - old(|postings|)) else Interrupted
      ensures outcome.Rejected? ==>
                && postings == old(postings) && cells == old(cells)
                && (forall cue :: Published(cue) == old(Published(cue)))
      ensures !outcome.Rejected? ==>
                && (exists landed :: CutFrom(old(Image()), Image(), Offers(records), landed, powers, hash))
                && (forall cue ::
                      Became(old(Image()), old(postings), old(cells), Image(), postings, cells, Offers(records), powers,
                             hash, outcome.Added?, cue))
      ensures outcome.Added? ==>
                && P.StoreAll(old(Image()), Singles(Offers(records)), powers, hash) == D.Takes(Image())
                && forall cue :: !old(IsHidden(cue)) ==>
                     Published(cue) == PublishAll(old(Published(cue)), EntriesFor(Offers(records), cue))
      ensures D.CleanDisk(old(Image()), powers) && !outcome.Interrupted? ==> D.CleanDisk(Image(), powers)
      ensures D.Grows(old(Image()), Image()) && CellsGiven(old(cells), postings, cells, cues, Offers(records))
    {
      hide Session, Sound, CueFile, D.Lawful, D.CleanDisk, CellsMatch, Quiet, Became, Shown, Hidden, Offers, D.Grows,
           CellHistory, CutFrom, Viewed, FirstOffense, P.StoreAll, Singles, D.PublishDisk, D.VirtualDisk, LandedSlots,
           CellsGiven, PublishAll, EntriesFor;
      ghost var start, postings0, cells0 := Image(), postings, cells;
      var disk, batch, nodes, held, refusal := StageRecords(records);
      if refusal.Some? {
        assert cues + [] == cues && postings + [] == postings;
        SoundBackward(postings, cells);
        Abandon(disk, [], []);
        GivesNothing(cells, postings, cues, Offers(records));
        return Rejected(refusal.value);
      }
      SessionFacts(start, postings, disk, batch, Offers(records), nodes, held, cells, powers, hash);
      match fate
      case CrashesEarly(whole, torn, kept) =>
        PutCutEarly(records, disk, batch, nodes, held, whole, torn, kept);
        return Interrupted;
      case CrashesLate(landing, counted) =>
        CutLate(start, postings, disk, batch, Offers(records), nodes, held, cells, LandedSlots(batch, landing), counted,
          powers, hash);
        Commit(disk, batch, Offers(records), nodes, held, landing, counted, false);
        return Interrupted;
      case Completes =>
        outcome := Added(|nodes| - |postings|);
        CutLate(start, postings, disk, batch, Offers(records), nodes, held, cells, LandedSlots(batch, EVERY_WRITE),
          D.EveryLevel(batch), powers, hash);
        Commit(disk, batch, Offers(records), nodes, held, EVERY_WRITE, D.EveryLevel(batch), true);
        ViewStored(start, disk, batch, Offers(records), powers, hash);
        forall cue | !Hidden(start, cells0, powers, hash, cue)
          ensures Published(cue)
                  == PublishAll(Shown(start, postings0, cells0, powers, hash, cue), EntriesFor(Offers(records), cue))
        {
          BecameShown(start, postings0, cells0, Image(), postings, cells, Offers(records), powers, hash, cue);
        }
    }

    /** The crash before the slots: of the batch's cues and nodes some have reached the disk. */
    method PutCutEarly(ghost records: seq<Record>, disk: D.Disk, batch: D.Batch, nodes: seq<Node>, ghost held: Held,
        whole: nat, torn: bool, kept: nat)
      requires Valid()
      requires Session(Image(), postings, disk, batch, Offers(records), nodes, held, cells, powers, hash)
      requires Viewed(Image(), disk, batch, Offers(records), powers, hash)
      modifies this
      ensures Valid() && old(postings) <= postings
      ensures exists landed :: CutFrom(old(Image()), Image(), Offers(records), landed, powers, hash)
      ensures forall cue :: Became(old(Image()), old(postings), old(cells), Image(), postings, cells, Offers(records),
                                   powers, hash, false, cue)
      ensures D.Grows(old(Image()), Image()) && CellsGiven(old(cells), postings, cells, cues, Offers(records))
    {
      hide Session, Sound, CueFile, D.Lawful, D.CleanDisk, CellsMatch, Quiet, Became, Shown, Offers, D.Grows,
           CellHistory, CutFrom, Viewed, CellsGiven;
      ghost var start, postings0, cells0 := Image(), postings, cells;
      SessionFacts(start, postings, disk, batch, Offers(records), nodes, held, cells, powers, hash);
      var end := if |cues| + whole <= |disk.capsules| then |cues| + whole else |disk.capsules|;
      var more := if |postings| + kept <= |nodes| then nodes[|postings|..|postings| + kept] else nodes[|postings|..];
      var tail := disk.capsules[|cues|..end] + (if torn then [D.Torn] else []);
      CutFiles(cues, disk.capsules, end, torn, postings, nodes, more, cells);
      CutEarly(start, postings, disk, batch, Offers(records), nodes, held, cells, tail, powers, hash);
      Abandon(disk, tail, more);
      forall cue
        ensures Became(start, postings0, cells0, Image(), postings, cells, Offers(records), powers, hash, false, cue)
      {
        assert Published(cue) == old(Published(cue)) == Shown(start, postings0, cells0, powers, hash, cue);
        SameShown(start, postings0, cells0, Image(), postings, Offers(records), powers, hash, cue);
      }
      GivesNothing(cells, postings, cues, Offers(records));
    }

    /**
     A put that a crash cut anywhere, or that ran, and then the same put run to its end: every cue no earlier crash
     has hidden answers as if the put had run once, and nothing had happened in between. A batch that is not refused
     for an offense of its own is refused the second time only for want of room, which a crash may have taken.
     */
    method PutAgain(records: seq<Record>, fate: Fate) returns (outcome: Outcome)
      requires Valid()
      modifies this
      ensures Valid() && !outcome.Interrupted?
      ensures FirstOffense(old(Holds()), Offers(records), powers, hash, valid).Some? ==>
                outcome == Rejected(FirstOffense(old(Holds()), Offers(records), powers, hash, valid).value)
      ensures FirstOffense(old(Holds()), Offers(records), powers, hash, valid).None?
              && AllValid(Offers(records), valid) && P.Agrees(old(Image()), ItemsOf(Offers(records)), hash) ==>
                || outcome.Added?
                || (outcome == Rejected(Misplaced(D.CapacityExceeded)) && !fate.Completes?
                    && !P.HasRoomFor(old(Image()), ItemsOf(Offers(records)), 2, powers, hash))
      ensures outcome.Added? ==> forall cue ::
        !old(IsHidden(cue)) && OneShard(old(Published(cue)) + EntriesFor(Offers(records), cue)) ==>
          Recent(Published(cue)) == Recent(old(Published(cue)) + EntriesFor(Offers(records), cue))
    {
      hide Sound, CueFile, D.Lawful, D.CleanDisk, Shown, Hidden, Offers, D.Grows, CellsGiven, OneShard, Recent,
           PublishAll, HasSlot, Became, CutFrom, FirstOffense, P.StoreAll, Singles, P.Agrees, P.HasRoomFor, AllValid,
           ItemsOf;
      ghost var start, postings0, cells0 := Image(), postings, cells;
      outcome := PutRecords(records, fate);
      if outcome.Rejected? { return; }
      ghost var mid, left, kept := Image(), postings, cells;
      ghost var holds := Holds();
      forall cue ensures Became(start, postings0, cells0, mid, left, kept, Offers(records), powers, hash, false, cue) {
        BecamePartly(start, postings0, cells0, mid, left, kept, Offers(records), powers, hash, outcome.Added?, cue);
      }
      ghost var landed :| CutFrom(start, mid, Offers(records), landed, powers, hash);
      if AllValid(Offers(records), valid) && P.Agrees(start, ItemsOf(Offers(records)), hash) {
        SecondOffense(start, holds, Offers(records), landed, fate.Completes?, powers, hash, valid);
      }
      outcome := PutRecords(records, Completes);
      if outcome.Added? {
        forall cue | !Hidden(start, cells0, powers, hash, cue)
          && OneShard(Shown(start, postings0, cells0, powers, hash, cue) + EntriesFor(Offers(records), cue))
          ensures Recent(Published(cue))
                  == Recent(Shown(start, postings0, cells0, powers, hash, cue) + EntriesFor(Offers(records), cue))
        {
          RetryShows(start, postings0, cells0, mid, left, kept, Image(), postings, cells, Offers(records), powers, hash,
            cue);
        }
      }
    }

    /**
     Any number of batches that run to their end, from a directory no crash has touched: each is added or rejected as
     it must be, and every cue shows the entries of those that were added, in order, and nothing else.
     */
    method PutAll(batches: seq<seq<Record>>) returns (outcomes: seq<Outcome>, ghost seen: seq<Snapshot>)
      requires Valid() && D.CleanDisk(Image(), powers)
      modifies this
      ensures Valid() && D.CleanDisk(Image(), powers)
      ensures |outcomes| == |batches| && |seen| == |batches| + 1
      ensures seen[0] == old(Holds()) && seen[|batches|] == Holds()
      ensures forall i :: 0 <= i < |batches| ==>
                Judged(seen[i], batches[i], outcomes[i], seen[i + 1], powers, hash, valid)
      ensures forall cue :: Published(cue)
                == PublishAll(old(Published(cue)), EntriesFor(Offers(AddedOf(batches, outcomes)), cue))
    {
      hide D.CleanDisk, Shown, Offers, Sound, CueFile, D.Lawful, CellsMatch, PublishAll, EntriesFor, Judged, AddedOf,
           Valid, IsHidden;
      outcomes, seen := [], [Holds()];
      NothingAdded(batches);
      for i := 0 to |batches|
        invariant Valid() && D.CleanDisk(Image(), powers)
        invariant |outcomes| == i && |seen| == i + 1 && seen[0] == old(Holds()) && seen[i] == Holds()
        invariant forall k :: 0 <= k < i ==>
                    Judged(seen[k], batches[k], outcomes[k], seen[k + 1], powers, hash, valid)
        invariant forall cue :: Published(cue)
                    == PublishAll(old(Published(cue)), EntriesFor(Offers(AddedOf(batches[..i], outcomes)), cue))
      {
        var outcome := PutOne(batches[i]);
        AddedNext(batches, outcomes, outcome, i);
        ghost var accepted := AddedOf(batches[..i], outcomes);
        if outcome.Added? {
          forall cue ensures Published(cue)
              == PublishAll(old(Published(cue)), EntriesFor(Offers(accepted + batches[i]), cue))
          {
            BatchIsOneByOne(old(Published(cue)), accepted, batches[i], cue);
          }
        } else {
          assert accepted + [] == accepted;
        }
        outcomes, seen := outcomes + [outcome], seen + [Holds()];
      }
      assert batches[..|batches|] == batches;
    }

    /** One of them. */
    method PutOne(records: seq<Record>) returns (outcome: Outcome)
      requires Valid() && D.CleanDisk(Image(), powers)
      modifies this
      ensures Valid() && D.CleanDisk(Image(), powers)
      ensures Judged(old(Holds()), records, outcome, Holds(), powers, hash, valid)
      ensures forall cue :: Published(cue) == if outcome.Added? then
                                                PublishAll(old(Published(cue)), EntriesFor(Offers(records), cue))
                                              else old(Published(cue))
    {
      hide D.CleanDisk, Became, Shown, Hidden, Offers, Sound, CueFile, D.Lawful, CellsMatch, CutFrom, FirstOffense,
           P.StoreAll, Singles, D.Grows, CellsGiven, PublishAll, EntriesFor, Judged;
      ghost var before := Holds();
      forall cue ensures !IsHidden(cue) { CleanHidesNothing(Image(), cells, powers, hash, cue); }
      outcome := PutRecords(records, Completes);
      JudgedNow(before, records, outcome, Holds(), powers, hash, valid);
    }
  }
}
