/**
 Transcript capture of `session_capture.py`: a scan that sends the complete lines of a growing transcript to
 the session store in bounded batches and publishes a cursor after each, interrupted anywhere and retried.
 */
module SessionCapture {
  import opened Wrappers

  /** Bytes of the transcript, as characters. */
  type Text = string

  const NEWLINE := '\n'
  const CHUNK: nat := 60000

  /** What `transcript_record` makes of a line. */
  datatype Reading = Bad | Excluded | Message(role: string, value: string, kind: string)

  /** The digest of host, session, path, line start, line and chunk index, as the injective function it stands for. */
  datatype RequestId = RequestId(start: nat, raw: Text, index: nat)

  datatype Payload = Payload(id: RequestId, text: string, role: string, kind: string, line: nat, part: nat, parts: nat)

  /** Functions the scan depends on: the record reader and the size estimate of a payload, with its budget. */
  datatype Host = Host(read: Text -> Reading, size: Payload -> nat, budget: nat)

  // ----- lines -----

  datatype Span = Span(start: nat, end: nat)

  /** `readline`: the end of the line that starts at `at`, when it is complete. */
  function LineEnd(text: Text, at: nat, k: nat): (end: Option<int>)
    requires at <= k <= |text|
    ensures end.Some? ==> k < end.value <= |text| && text[end.value - 1] == NEWLINE
    decreases |text| - k
  {
    if k == |text| then None else if text[k] == NEWLINE then Some(k + 1) else LineEnd(text, at, k + 1)
  }

  /** The complete lines from a line start on. */
  function Lines(text: Text, at: nat): (lines: seq<Span>)
    requires at <= |text|
    ensures forall i :: 0 <= i < |lines| ==> at <= lines[i].start < lines[i].end <= |text|
    decreases |text| - at
  {
    match LineEnd(text, at, at)
    case None => []
    case Some(end) => [Span(at, end)] + Lines(text, end)
  }

  lemma {:induction false} LineEndStays(text: Text, more: Text, at: nat, k: nat)
    requires at <= k <= |text| && LineEnd(text, at, k).Some?
    ensures LineEnd(text + more, at, k) == LineEnd(text, at, k)
    decreases |text| - k
  {
    if text[k] != NEWLINE { LineEndStays(text, more, at, k + 1); }
  }

  /** A transcript that grows keeps its complete lines. */
  lemma {:induction false} LinesGrow(text: Text, more: Text, at: nat)
    requires at <= |text|
    ensures |Lines(text, at)| <= |Lines(text + more, at)|
    ensures forall i :: 0 <= i < |Lines(text, at)| ==> Lines(text + more, at)[i] == Lines(text, at)[i]
    decreases |text| - at
  {
    var end := LineEnd(text, at, at);
    if end.Some? {
      LineEndStays(text, more, at, at);
      LinesGrow(text, more, end.value);
    }
  }

  lemma {:induction false} LinesFrom(text: Text, at: nat, i: nat)
    requires at <= |text| && i <= |Lines(text, at)|
    ensures var from := if i == 0 then at else Lines(text, at)[i - 1].end; Lines(text, from) == Lines(text, at)[i..]
    decreases i
  {
    if i > 0 { LinesFrom(text, Lines(text, at)[0].end, i - 1); }
  }

  /** Each line starts where the previous one ends. */
  lemma {:induction false} LineStart(text: Text, at: nat, i: nat)
    requires at <= |text| && i < |Lines(text, at)|
    ensures Lines(text, at)[i].start == if i == 0 then at else Lines(text, at)[i - 1].end
    decreases i
  {
    if i > 0 { LineStart(text, Lines(text, at)[0].end, i - 1); }
  }

  lemma {:induction false} StartsIncrease(text: Text, i: nat, j: nat)
    requires i < j < |Lines(text, 0)|
    ensures Lines(text, 0)[i].start < Lines(text, 0)[j].start
    decreases j - i
  {
    LineStart(text, 0, j);
    if i + 1 < j { StartsIncrease(text, i, j - 1); }
  }

  // ----- payloads -----

  function Raw(text: Text, line: Span): Text {
    if line.start <= line.end <= |text| then text[line.start..line.end] else []
  }

  function Parts(value: string): nat { (|value| + CHUNK - 1) / CHUNK }

  function Chunk(value: string, index: nat): string
    requires index < Parts(value)
  {
    value[index * CHUNK..if |value| < (index + 1) * CHUNK then |value| else (index + 1) * CHUNK]
  }

  /** `payloads`: the record's text in chunks, each with its own request id. */
  function Payloads(raw: Text, start: nat, m: Reading, line: nat): (payloads: seq<Payload>)
    requires m.Message?
    ensures |payloads| == Parts(m.value)
    ensures forall k :: 0 <= k < |payloads| ==> payloads[k].id == RequestId(start, raw, k)
  {
    seq(Parts(m.value), k requires 0 <= k < Parts(m.value) =>
      Payload(RequestId(start, raw, k), Chunk(m.value, k), m.role, m.kind, line, k + 1, Parts(m.value)))
  }

  function Joined(value: string, n: nat): string
    requires n <= Parts(value)
  {
    if n == 0 then "" else Joined(value, n - 1) + Chunk(value, n - 1)
  }

  /** The chunks put together again are the text. */
  lemma {:induction false} ChunksJoin(value: string, n: nat)
    requires n <= Parts(value)
    ensures Joined(value, n) == value[..if |value| < n * CHUNK then |value| else n * CHUNK]
  {
    if n > 0 { ChunksJoin(value, n - 1); }
  }

  lemma ChunksAreTheText(value: string)
    ensures Joined(value, Parts(value)) == value
  {
    ChunksJoin(value, Parts(value));
    assert value[..|value|] == value;
  }

  /** What line `i` of the transcript contributes. */
  ghost function LinePayloads(host: Host, text: Text, i: nat): seq<Payload> {
    var lines := Lines(text, 0);
    if i >= |lines| then []
    else
      var raw := Raw(text, lines[i]);
      if host.read(raw).Message? then Payloads(raw, lines[i].start, host.read(raw), i + 1) else []
  }

  ghost function LineReading(host: Host, text: Text, i: nat): Reading {
    if i < |Lines(text, 0)| then host.read(Raw(text, Lines(text, 0)[i])) else Bad
  }

  /** Payloads of the first `i` lines. */
  ghost function PayloadsBefore(host: Host, text: Text, i: nat): set<Payload> {
    if i == 0 then {} else PayloadsBefore(host, text, i - 1) + PayloadsAt(host, text, i - 1)
  }

  ghost function PayloadsAt(host: Host, text: Text, i: nat): set<Payload> { set p | p in LinePayloads(host, text, i) }

  ghost function Count(host: Host, text: Text, i: nat, captured: bool): nat {
    if i == 0 then 0
    else Count(host, text, i - 1, captured)
         + (if LineReading(host, text, i - 1).Bad? || LineReading(host, text, i - 1).Message? != captured then 0 else 1)
  }

  lemma {:induction false} FoundBefore(host: Host, text: Text, i: nat, p: Payload) returns (j: nat)
    requires p in PayloadsBefore(host, text, i)
    ensures j < i && p in LinePayloads(host, text, j)
  {
    hide LinePayloads;
    if p in LinePayloads(host, text, i - 1) { j := i - 1; } else { j := FoundBefore(host, text, i - 1, p); }
  }

  lemma {:induction false} BeforeGrows(host: Host, text: Text, i: nat, j: nat)
    requires i <= j
    ensures forall p :: p in PayloadsBefore(host, text, i) ==> p in PayloadsBefore(host, text, j)
    decreases j
  {
    hide LinePayloads;
    if i < j { BeforeGrows(host, text, i, j - 1); }
  }

  /** Request ids tell payloads apart. */
  lemma IdsAreDistinct(host: Host, text: Text, n: nat, p: Payload, q: Payload)
    requires p in PayloadsBefore(host, text, n) && q in PayloadsBefore(host, text, n) && p.id == q.id
    ensures p == q
  {
    var i := FoundBefore(host, text, n, p);
    var j := FoundBefore(host, text, n, q);
    if i < j { StartsIncrease(text, i, j); }
    if j < i { StartsIncrease(text, j, i); }
  }

  lemma SameLine(host: Host, text: Text, more: Text, i: nat)
    requires i < |Lines(text, 0)|
    ensures i < |Lines(text + more, 0)| && Lines(text + more, 0)[i] == Lines(text, 0)[i]
    ensures LinePayloads(host, text + more, i) == LinePayloads(host, text, i)
    ensures PayloadsAt(host, text + more, i) == PayloadsAt(host, text, i)
    ensures LineReading(host, text + more, i) == LineReading(host, text, i)
  {
    LinesGrow(text, more, 0);
    hide Lines, Payloads;
    var line := Lines(text, 0)[i];
    assert Lines(text + more, 0)[i] == line;
    assert Raw(text + more, line) == Raw(text, line);
  }

  lemma BeforeUnfolds(host: Host, text: Text, i: nat)
    ensures PayloadsBefore(host, text, i + 1) == PayloadsBefore(host, text, i) + PayloadsAt(host, text, i)
  {
    hide LinePayloads;
  }

  /** Growth changes nothing that was said about the earlier lines. */
  lemma {:induction false} SamePayloads(host: Host, text: Text, more: Text, i: nat)
    requires i <= |Lines(text, 0)|
    ensures PayloadsBefore(host, text + more, i) == PayloadsBefore(host, text, i)
  {
    hide Lines, LinePayloads;
    if i > 0 {
      hide PayloadsBefore, PayloadsAt;
      SamePayloads(host, text, more, i - 1);
      SameLine(host, text, more, i - 1);
      BeforeUnfolds(host, text, i - 1);
      BeforeUnfolds(host, text + more, i - 1);
    }
  }

  lemma {:induction false} SameCount(host: Host, text: Text, more: Text, i: nat, captured: bool)
    requires i <= |Lines(text, 0)|
    ensures Count(host, text + more, i, captured) == Count(host, text, i, captured)
  {
    hide Lines;
    if i > 0 {
      SameCount(host, text, more, i - 1, captured);
      SameLine(host, text, more, i - 1);
      hide LineReading;
    }
  }

  // ----- the cursor and the store -----

  datatype Cursor = Cursor(offset: nat, line: nat, captured: nat, excluded: nat)

  type Store = map<RequestId, Payload>

  /** The cursor stands at the end of a complete line and accounts for every line before it. */
  ghost predicate CursorAt(host: Host, text: Text, c: Cursor, i: nat) {
    && i <= |Lines(text, 0)| && c.line == i
    && c.offset == (if i == 0 then 0 else Lines(text, 0)[i - 1].end)
    && c.captured == Count(host, text, i, true) && c.excluded == Count(host, text, i, false)
    && c.line == c.captured + c.excluded
  }

  ghost predicate InStore(store: Store, payloads: set<Payload>) {
    forall p :: p in payloads ==> p.id in store
  }

  /** Every payload of a line before the cursor is stored. */
  ghost predicate Covered(host: Host, text: Text, c: Cursor, store: Store) {
    CursorAt(host, text, c, c.line) && InStore(store, PayloadsBefore(host, text, c.line))
  }

  /** Whatever is stored is the payload of a complete line. */
  ghost predicate Sourced(host: Host, text: Text, store: Store) {
    forall id :: id in store ==> store[id].id == id && store[id] in PayloadsBefore(host, text, |Lines(text, 0)|)
  }

  ghost predicate Consistent(host: Host, text: Text, c: Cursor, store: Store) {
    Covered(host, text, c, store) && Sourced(host, text, store)
  }

  lemma GrowthIsCovered(host: Host, text: Text, more: Text, c: Cursor, store: Store)
    requires Covered(host, text, c, store)
    ensures Covered(host, text + more, c, store)
  {
    hide PayloadsBefore, Lines, Count, LinePayloads, LineReading;
    SamePayloads(host, text, more, c.line);
    SameCount(host, text, more, c.line, true);
    SameCount(host, text, more, c.line, false);
    LinesGrow(text, more, 0);
  }

  lemma GrowthIsSourced(host: Host, text: Text, more: Text, store: Store)
    requires Sourced(host, text, store)
    ensures Sourced(host, text + more, store)
  {
    hide PayloadsBefore, Lines;
    SamePayloads(host, text, more, |Lines(text, 0)|);
    LinesGrow(text, more, 0);
    BeforeGrows(host, text + more, |Lines(text, 0)|, |Lines(text + more, 0)|);
  }

  /** A transcript that only grows keeps cursor and store consistent. */
  lemma GrowthIsConsistent(host: Host, text: Text, more: Text, c: Cursor, store: Store)
    requires Consistent(host, text, c, store)
    ensures Consistent(host, text + more, c, store)
  {
    GrowthIsCovered(host, text, more, c, store);
    GrowthIsSourced(host, text, more, store);
  }

  /** What is stored under a payload's id is that payload. */
  lemma StoredIsPayload(host: Host, text: Text, c: Cursor, store: Store, p: Payload)
    requires Consistent(host, text, c, store) && p in PayloadsBefore(host, text, c.line)
    ensures p.id in store && store[p.id] == p
  {
    var n := |Lines(text, 0)|;
    BeforeGrows(host, text, c.line, n);
    assert store[p.id] in PayloadsBefore(host, text, n);
    IdsAreDistinct(host, text, n, p, store[p.id]);
  }

  /** A scan that reached the last complete line leaves exactly the payloads of the complete lines. */
  lemma FinishedIsExact(host: Host, text: Text, c: Cursor, store: Store, id: RequestId)
    requires Consistent(host, text, c, store) && c.line == |Lines(text, 0)|
    ensures id in store <==> exists p :: p in PayloadsBefore(host, text, c.line) && p.id == id
    ensures id in store ==> store[id] in PayloadsBefore(host, text, c.line)
  {
  }

  // ----- the scan -----

  /** `ingest_many`: all rows or none; a request id already known changes nothing. */
  function Ingested(store: Store, payloads: seq<Payload>): Store {
    if payloads == [] then store
    else
      var before, p := Ingested(store, payloads[..|payloads| - 1]), payloads[|payloads| - 1];
      if p.id in before then before else before[p.id := p]
  }

  lemma {:induction false} IngestedFacts(store: Store, payloads: seq<Payload>)
    ensures forall id :: id in store ==> id in Ingested(store, payloads) && Ingested(store, payloads)[id] == store[id]
    ensures forall p :: p in payloads ==> p.id in Ingested(store, payloads)
    ensures forall id :: id in Ingested(store, payloads) && id !in store ==>
              Ingested(store, payloads)[id] in payloads && Ingested(store, payloads)[id].id == id
  {
    if payloads != [] { IngestedFacts(store, payloads[..|payloads| - 1]); }
  }

  lemma NextLine(text: Text, c: Cursor)
    requires c.line <= |Lines(text, 0)| && c.offset == (if c.line == 0 then 0 else Lines(text, 0)[c.line - 1].end)
    ensures c.offset <= |text|
    ensures match LineEnd(text, c.offset, c.offset)
            case None => c.line == |Lines(text, 0)|
            case Some(end) => c.line < |Lines(text, 0)| && Lines(text, 0)[c.line] == Span(c.offset, end)
  {
    LinesFrom(text, 0, c.line);
    if c.line < |Lines(text, 0)| { assert Lines(text, 0)[c.line..][0] == Lines(text, 0)[c.line]; }
  }

  /** Everything before line `i`, and `extra` of that line, is stored or waiting; what waits comes from there. */
  ghost predicate Accounted(host: Host, text: Text, i: nat, extra: seq<Payload>, store: Store, pending: seq<Payload>) {
    && (forall p :: p in PayloadsBefore(host, text, i) || p in extra ==> p.id in store || p in pending)
    && (forall p :: p in pending ==> p in PayloadsBefore(host, text, i) || p in extra)
  }

  /** Where a publication can stop: before the batch is stored, between the store and the cursor, or not at all. */
  datatype Stage = BeforeStore | BeforeCursor | Through

  datatype Outcome = Captured(admitted: nat) | RecordInvalid | Interrupted

  /** After a batch is stored the lines before the batch cursor are covered, and nothing foreign was added. */
  lemma PublishedIsConsistent(host: Host, text: Text, batch: Cursor, extra: seq<Payload>, store: Store,
      pending: seq<Payload>)
    requires CursorAt(host, text, batch, batch.line) && Accounted(host, text, batch.line, extra, store, pending)
    requires forall p :: p in extra ==> batch.line < |Lines(text, 0)| && p in LinePayloads(host, text, batch.line)
    ensures Covered(host, text, batch, Ingested(store, pending))
    ensures Accounted(host, text, batch.line, extra, Ingested(store, pending), [])
    ensures Sourced(host, text, store) ==> Sourced(host, text, Ingested(store, pending))
  {
    hide CursorAt, Ingested, LinePayloads;
    IngestedFacts(store, pending);
    var after, n := Ingested(store, pending), |Lines(text, 0)|;
    assert batch.line <= n by { CursorInside(host, text, batch); }
    BeforeGrows(host, text, batch.line, n);
    if batch.line < n { BeforeGrows(host, text, batch.line + 1, n); }
    forall p | p in pending ensures p in PayloadsBefore(host, text, n) {
      if p in extra { assert p in PayloadsBefore(host, text, batch.line + 1); }
    }
    hide PayloadsBefore;
    assert Sourced(host, text, store) ==> Sourced(host, text, after);
  }

  lemma CursorInside(host: Host, text: Text, c: Cursor)
    requires CursorAt(host, text, c, c.line)
    ensures c.line <= |Lines(text, 0)|
    ensures c.offset == (if c.line == 0 then 0 else Lines(text, 0)[c.line - 1].end)
  {
  }

  /** Reading one line moves the cursor over it and counts it. */
  function Advanced(c: Cursor, end: nat, m: Reading): Cursor {
    Cursor(end, c.line + 1,
      if m.Message? then c.captured + 1 else c.captured, if m.Message? then c.excluded else c.excluded + 1)
  }

  lemma AdvancedIsCursor(host: Host, text: Text, c: Cursor, end: nat)
    requires CursorAt(host, text, c, c.line) && c.line < |Lines(text, 0)|
             && Lines(text, 0)[c.line] == Span(c.offset, end)
    requires !LineReading(host, text, c.line).Bad?
    ensures CursorAt(host, text, Advanced(c, end, LineReading(host, text, c.line)), c.line + 1)
  {
    hide Lines;
  }

  lemma AccountedLine(host: Host, text: Text, i: nat, store: Store, pending: seq<Payload>)
    requires Accounted(host, text, i, LinePayloads(host, text, i), store, pending)
    ensures Accounted(host, text, i + 1, [], store, pending)
  {
    hide LinePayloads, PayloadsBefore;
    BeforeUnfolds(host, text, i);
  }

  /** The store only gains: no id is lost or changed. */
  ghost predicate Kept(before: Store, after: Store) {
    forall id :: id in before ==> id in after && after[id] == before[id]
  }

  lemma IngestedKeeps(store: Store, payloads: seq<Payload>)
    ensures Kept(store, Ingested(store, payloads))
  {
    IngestedFacts(store, payloads);
  }

  lemma KeptTwice(a: Store, b: Store, c: Store)
    requires Kept(a, b) && Kept(b, c)
    ensures Kept(a, c)
  {
  }

  lemma CoveredGrows(host: Host, text: Text, c: Cursor, before: Store, after: Store)
    requires Kept(before, after)
    ensures Covered(host, text, c, before) ==> Covered(host, text, c, after)
  {
  }

  lemma AccountedMore(host: Host, text: Text, i: nat, payloads: seq<Payload>, k: nat, store: Store,
      pending: seq<Payload>)
    requires k < |payloads| && Accounted(host, text, i, payloads[..k], store, pending)
    ensures Accounted(host, text, i, payloads[..k + 1], store, pending + [payloads[k]])
  {
    hide PayloadsBefore;
    assert payloads[..k + 1] == payloads[..k] + [payloads[k]];
  }

  /** The line at which a scan resumes: a transcript shorter than the cursor is read from the start. */
  function Resumed(text: Text, c: Cursor): nat { if |text| < c.offset then 0 else c.line }

  /** Nothing stops a publication. */
  ghost predicate Undisturbed(fate: nat -> Stage) { forall k :: fate(k).Through? }

  /** Every complete line from `first` on can be read. */
  ghost predicate Readable(host: Host, text: Text, first: nat) {
    forall i :: first <= i < |Lines(text, 0)| ==> !LineReading(host, text, i).Bad?
  }

  /** How many payloads the first `i` lines contribute. */
  ghost function Admitted(host: Host, text: Text, i: nat): nat {
    if i == 0 then 0 else Admitted(host, text, i - 1) + |LinePayloads(host, text, i - 1)|
  }

  lemma AdmittedLine(host: Host, text: Text, i: nat)
    ensures Admitted(host, text, i + 1) == Admitted(host, text, i) + |LinePayloads(host, text, i)|
  {
    hide LinePayloads;
  }

  lemma ScanStarts(host: Host, text: Text, c: Cursor, store: Store)
    requires c == Cursor(0, 0, 0, 0) || Covered(host, text, c, store)
    ensures CursorAt(host, text, c, c.line) && Accounted(host, text, c.line, [], store, []) && c.offset <= |text|
  {
  }

  lemma LineIs(host: Host, text: Text, i: nat, start: nat, end: nat)
    requires i < |Lines(text, 0)| && Lines(text, 0)[i] == Span(start, end)
    ensures end <= |text| && start <= end && LineReading(host, text, i) == host.read(text[start..end])
    ensures LinePayloads(host, text, i)
         == if host.read(text[start..end]).Message?
           then Payloads(text[start..end], start, host.read(text[start..end]), i + 1) else []
  {
  }

  lemma KeptSelf(a: Store)
    ensures Kept(a, a)
  {
  }

  class SessionCapture {
    const host: Host
    /** The published cursor and the session store, as they are on disk. */
    var cursor: Cursor
    var store: Store

    constructor (host: Host)
      ensures this.host == host && cursor == Cursor(0, 0, 0, 0) && store == map[]
    {
      this.host, cursor, store := host, Cursor(0, 0, 0, 0), map[];
    }

    /** `publish`: the batch, then the cursor that covers it. */
    method Publish(pending: seq<Payload>, safe: Cursor, stage: Stage) returns (through: bool)
      modifies this
      ensures through <==> stage.Through?
      ensures store == if stage.BeforeStore? then old(store) else Ingested(old(store), pending)
      ensures cursor == if stage.Through? then safe else old(cursor)
    {
      if stage.BeforeStore? { return false; }
      store := Ingested(store, pending);
      if stage.BeforeCursor? { return false; }
      cursor := safe;
      return true;
    }

    /** The payloads of one line join the batch; whenever it would grow too large it is published first. */
    method QueueLine(payloads: seq<Payload>, batch: Cursor, before: seq<Payload>, size: nat, done: nat,
        fate: nat -> Stage, ghost text: Text)
      returns (pending: seq<Payload>, bytes: nat, published: nat, through: bool)
      requires CursorAt(host, text, batch, batch.line) && batch.line < |Lines(text, 0)|
               && payloads == LinePayloads(host, text, batch.line)
      requires Accounted(host, text, batch.line, [], store, before)
      modifies this
      ensures through ==> Accounted(host, text, batch.line, payloads, store, pending)
      ensures !through ==> exists k :: !fate(k).Through?
      ensures Kept(old(store), store) && (Sourced(host, text, old(store)) ==> Sourced(host, text, store))
      ensures cursor == old(cursor) || (cursor == batch && Covered(host, text, batch, store))
    {
      hide Covered, Sourced, CursorAt, LinePayloads, Lines, PayloadsBefore, Ingested;
      pending, bytes, published, through := before, size, done, true;
      for k := 0 to |payloads|
        invariant Accounted(host, text, batch.line, payloads[..k], store, pending)
        invariant Kept(old(store), store) && (Sourced(host, text, old(store)) ==> Sourced(host, text, store))
        invariant cursor == old(cursor) || (cursor == batch && Covered(host, text, batch, store))
      {
        var estimated := host.size(payloads[k]) + 64;
        if pending != [] && bytes + estimated > host.budget {
          ghost var was := store;
          assert forall p :: p in payloads[..k] ==> p in payloads;
          PublishedIsConsistent(host, text, batch, payloads[..k], store, pending);
          IngestedKeeps(store, pending);
          CoveredGrows(host, text, cursor, store, Ingested(store, pending));
          through := Publish(pending, batch, fate(published));
          if !through { return; }
          pending, bytes, published := [], 64, published + 1;
        }
        AccountedMore(host, text, batch.line, payloads, k, store, pending);
        pending, bytes := pending + [payloads[k]], bytes + estimated;
      }
      assert payloads[..|payloads|] == payloads;
    }

    /**
     `_scan_locked`: line after line to the last complete one, publishing as it goes. `fate(k)` says how far the
     `k`-th publication gets.
     */
    method Scan(text: Text, fate: nat -> Stage) returns (outcome: Outcome)
      requires |text| < cursor.offset || Covered(host, text, cursor, store)
      modifies this
      ensures Kept(old(store), store) && (Sourced(host, text, old(store)) ==> Sourced(host, text, store))
      ensures cursor == old(cursor) || Covered(host, text, cursor, store)
      ensures old(Covered(host, text, cursor, store)) ==> Covered(host, text, cursor, store)
      ensures outcome.Captured? ==> Covered(host, text, cursor, store) && cursor.line == |Lines(text, 0)|
      ensures outcome.Captured? ==>
                Admitted(host, text, Resumed(text, old(cursor))) + outcome.admitted
                == Admitted(host, text, |Lines(text, 0)|)
      ensures outcome.RecordInvalid? ==>
                exists i :: Resumed(text, old(cursor)) <= i < |Lines(text, 0)| && LineReading(host, text, i).Bad?
      ensures outcome.Captured? ==> Readable(host, text, Resumed(text, old(cursor)))
      ensures outcome.Interrupted? ==> exists k :: !fate(k).Through?
      ensures Undisturbed(fate) && Readable(host, text, Resumed(text, old(cursor))) ==> outcome.Captured?
    {
      hide Covered, Sourced, LinePayloads, PayloadsBefore, Ingested, Accounted, Kept, LineReading, Lines, Admitted;
      var c := if |text| < cursor.offset then Cursor(0, 0, 0, 0) else cursor;
      var pending: seq<Payload>, bytes: nat, published: nat, admitted: nat := [], 64, 0, 0;
      KeptSelf(store);
      ScanStarts(host, text, c, store);
      var first := c.line;
      while true
        invariant CursorAt(host, text, c, c.line) && Accounted(host, text, c.line, [], store, pending)
        invariant Kept(old(store), store) && (Sourced(host, text, old(store)) ==> Sourced(host, text, store))
        invariant cursor == old(cursor) || Covered(host, text, cursor, store)
        invariant old(Covered(host, text, cursor, store)) ==> Covered(host, text, cursor, store)
        invariant first <= c.line && forall i :: first <= i < c.line ==> !LineReading(host, text, i).Bad?
        invariant admitted + Admitted(host, text, first) == Admitted(host, text, c.line)
        invariant c.offset <= |text|
        decreases |text| - c.offset
      {
        CursorInside(host, text, c);
        NextLine(text, c);
        var end := LineEnd(text, c.offset, c.offset);
        if end == None { break; }
        var raw := text[c.offset..end.value];
        var m := host.read(raw);
        LineIs(host, text, c.line, c.offset, end.value);
        if m.Bad? { return RecordInvalid; }
        if m.Message? {
          var payloads := Payloads(raw, c.offset, m, c.line + 1);
          ghost var was, wasCursor := store, cursor;
          var through;
          pending, bytes, published, through := QueueLine(payloads, c, pending, bytes, published, fate, text);
          KeptTwice(old(store), was, store);
          CoveredGrows(host, text, wasCursor, was, store);
          if !through { return Interrupted; }
          admitted := admitted + |payloads|;
        }
        AdmittedLine(host, text, c.line);
        AccountedLine(host, text, c.line, store, pending);
        AdvancedIsCursor(host, text, c, end.value);
        c := Advanced(c, end.value, m);
      }
      ghost var was := store;
      PublishedIsConsistent(host, text, c, [], store, pending);
      IngestedKeeps(store, pending);
      KeptTwice(old(store), store, Ingested(store, pending));
      CoveredGrows(host, text, cursor, store, Ingested(store, pending));
      var through := Publish(pending, c, fate(published));
      outcome := if through then Captured(admitted) else Interrupted;
    }
  }

  // ----- any run of retries and growth -----

  /** The transcript grows by some text, and is scanned. */
  datatype Attempt = Attempt(more: Text, fate: nat -> Stage)

  /** The transcript after some attempts. */
  function Grown(attempts: seq<Attempt>): Text {
    if attempts == [] then "" else Grown(attempts[..|attempts| - 1]) + attempts[|attempts| - 1].more
  }

  ghost predicate StoreIsExact(host: Host, text: Text, store: Store) {
    && (forall p :: p in PayloadsBefore(host, text, |Lines(text, 0)|) ==> p.id in store && store[p.id] == p)
    && (forall id :: id in store ==> store[id] in PayloadsBefore(host, text, |Lines(text, 0)|))
  }

  lemma FinishedStore(host: Host, text: Text, c: Cursor, store: Store)
    requires Consistent(host, text, c, store) && c.line == |Lines(text, 0)|
    ensures StoreIsExact(host, text, store)
  {
    hide Lines, PayloadsBefore, CursorAt;
    forall p | p in PayloadsBefore(host, text, c.line) ensures p.id in store && store[p.id] == p {
      StoredIsPayload(host, text, c, store, p);
    }
  }

  /** How one attempt ends, on the transcript as it is then. */
  ghost predicate Ends(host: Host, text: Text, fate: nat -> Stage, outcome: Outcome, store: Store) {
    && (outcome.Captured? ==> StoreIsExact(host, text, store))
    && (outcome.RecordInvalid? ==> !Readable(host, text, 0))
    && (outcome.Interrupted? ==> !Undisturbed(fate))
    && (Undisturbed(fate) && Readable(host, text, 0) ==> outcome.Captured?)
  }

  /** Attempt `k` of a run: the store only gained, all of it is the transcript's, and the scan ended as it must. */
  ghost predicate Went(host: Host, attempts: seq<Attempt>, outcomes: seq<Outcome>, stores: seq<Store>, k: nat) {
    && k < |attempts| && k < |outcomes| && k + 1 < |stores|
    && Kept(stores[k], stores[k + 1]) && Sourced(host, Grown(attempts[..k + 1]), stores[k + 1])
    && Ends(host, Grown(attempts[..k + 1]), attempts[k].fate, outcomes[k], stores[k + 1])
  }

  lemma EmptyTranscript(host: Host)
    ensures Consistent(host, "", Cursor(0, 0, 0, 0), map[])
  {
  }

  lemma GrownLast(attempts: seq<Attempt>, n: nat)
    requires n < |attempts|
    ensures Grown(attempts[..n + 1]) == Grown(attempts[..n]) + attempts[n].more
  {
    assert attempts[..n + 1][..n] == attempts[..n];
  }

  /**
   A transcript that grows, and scans of it that may be stopped anywhere and are tried again: nothing that was stored
   is lost or changed, nothing foreign is ever stored, and whenever a scan finishes the store is exactly the payloads
   of the complete lines. A scan that nothing stops finishes if every line can be read.
   */
  method Follow(host: Host, attempts: seq<Attempt>)
    returns (capture: SessionCapture, outcomes: seq<Outcome>, ghost stores: seq<Store>)
    ensures capture.host == host && |outcomes| == |attempts| && |stores| == |attempts| + 1
    ensures stores[0] == map[] && stores[|attempts|] == capture.store
    ensures forall k :: 0 <= k < |attempts| ==> Went(host, attempts, outcomes, stores, k)
    ensures Consistent(host, Grown(attempts), capture.cursor, capture.store)
  {
    hide Covered, Sourced, Kept, Ends, Grown, Readable, Undisturbed, Lines, Admitted, LineReading, Went;
    capture := new SessionCapture(host);
    outcomes, stores := [], [map[]];
    EmptyTranscript(host);
    NothingGrown(attempts);
    for n := 0 to |attempts|
      invariant fresh(capture) && capture.host == host && |outcomes| == n && |stores| == n + 1
      invariant stores[0] == map[] && stores[n] == capture.store
      invariant Consistent(host, Grown(attempts[..n]), capture.cursor, capture.store)
      invariant forall k :: 0 <= k < n ==> Went(host, attempts, outcomes, stores, k)
    {
      GrownLast(attempts, n);
      GrowthIsConsistent(host, Grown(attempts[..n]), attempts[n].more, capture.cursor, capture.store);
      var outcome := Try(capture, Grown(attempts[..n + 1]), attempts[n].fate);
      WentOn(host, attempts, outcomes, stores, n, outcome, capture.store);
      outcomes, stores := outcomes + [outcome], stores + [capture.store];
    }
    assert attempts[..|attempts|] == attempts;
  }

  lemma WentOn(host: Host, attempts: seq<Attempt>, outcomes: seq<Outcome>, stores: seq<Store>, n: nat,
      outcome: Outcome, store: Store)
    requires n < |attempts| && |outcomes| == n && |stores| == n + 1
    requires forall k :: 0 <= k < n ==> Went(host, attempts, outcomes, stores, k)
    requires Kept(stores[n], store) && Sourced(host, Grown(attempts[..n + 1]), store)
    requires Ends(host, Grown(attempts[..n + 1]), attempts[n].fate, outcome, store)
    ensures forall k :: 0 <= k < n + 1 ==> Went(host, attempts, outcomes + [outcome], stores + [store], k)
  {
    hide Kept, Sourced, Ends, Grown;
    var more, all := outcomes + [outcome], stores + [store];
    forall k | 0 <= k < n + 1 ensures Went(host, attempts, more, all, k) {
      if k < n {
        assert Went(host, attempts, outcomes, stores, k);
        assert more[k] == outcomes[k] && all[k] == stores[k] && all[k + 1] == stores[k + 1];
      }
    }
  }

  lemma NothingGrown(attempts: seq<Attempt>)
    ensures Grown(attempts[..0]) == ""
  {
  }

  /** One attempt. */
  method Try(capture: SessionCapture, text: Text, fate: nat -> Stage) returns (outcome: Outcome)
    requires Consistent(capture.host, text, capture.cursor, capture.store)
    modifies capture
    ensures Consistent(capture.host, text, capture.cursor, capture.store) && Kept(old(capture.store), capture.store)
    ensures Ends(capture.host, text, fate, outcome, capture.store)
  {
    hide Covered, Sourced, Kept, Lines, Admitted, LineReading, StoreIsExact;
    outcome := capture.Scan(text, fate);
    if outcome.Captured? { FinishedStore(capture.host, text, capture.cursor, capture.store); }
  }
}
