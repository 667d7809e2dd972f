/**
 The durable journal of `native_journal.py`: checksummed frames in byte files, torn-tail recovery, rotation
 into segments and replacement of a whole generation, with a crash possible at every byte and between any
 two file operations.
 */
module NativeJournal {
  import opened Encoding
  import opened Wrappers

  type Bytes = seq<Byte>

  const FILE_MAGIC: Bytes := [86, 82, 83, 50, 74, 78, 76, 49]
  const DIGEST_BYTES: nat := 32
  const MAX_FRAME_BYTES: nat := 67108864
  const ROTATE_BYTES: nat := 33554432

  datatype Content = Content(request: string, body: string, fingerprint: string, pair: string)

  datatype Row = Row(number: int, content: Content)

  /** JSON with compression, and SHA-256, as functions; `decode` is also asked about bytes nobody encoded. */
  datatype Codec = Codec(encode: seq<Row> -> Bytes, decode: Bytes -> Option<seq<Row>>, digest: Bytes -> Bytes) {
    ghost predicate RoundTrips() {
      && (forall rows :: decode(encode(rows)) == Some(rows))
      && (forall payload :: |digest(payload)| == DIGEST_BYTES)
    }
  }

  datatype Error = MagicInvalid | Truncated | FrameTooLarge | IntegrityFailed | FrameInvalid | SequenceInvalid
                 | HeadMissing | GenerationMissing | ReadOnly | GenerationExists | WriteFailed

  // ----- frames -----

  /** `struct.Struct('<Q').pack`. */
  function Pack(n: nat, width: nat): (bytes: Bytes)
    ensures |bytes| == width
  {
    if width == 0 then [] else [n % 256] + Pack(n / 256, width - 1)
  }

  function Limit(width: nat): nat { if width == 0 then 1 else 256 * Limit(width - 1) }

  lemma {:induction false} UnpackPack(n: nat, width: nat)
    requires n < Limit(width)
    ensures LittleEndian(Pack(n, width)) == n
  {
    if width > 0 {
      UnpackPack(n / 256, width - 1);
      assert Pack(n, width)[1..] == Pack(n / 256, width - 1);
    }
  }

  function Frame(codec: Codec, rows: seq<Row>): Bytes {
    var payload := codec.encode(rows);
    Pack(|payload|, 8) + payload + codec.digest(payload)
  }

  // ----- reading a file -----

  /** What reading yields: the rows, where the last whole frame ends, and why it stopped early. */
  datatype Parsed = Parsed(rows: seq<Row>, end: nat, error: Option<Error>)

  function Size(file: Bytes, at: nat): nat { if at + 8 <= |file| then LittleEndian(file[at..at + 8]) else 0 }

  datatype Step = Whole(rows: seq<Row>, next: nat) | Stop(error: Error)

  /** The frame that starts at `at`. */
  function ReadFrame(codec: Codec, file: Bytes, at: nat): (step: Step)
    requires at < |file|
    ensures step.Whole? ==> at < step.next <= |file|
  {
    var size := Size(file, at);
    var body, next := at + 8, at + 8 + size + DIGEST_BYTES;
    if |file| < at + 8 then Stop(Truncated)
    else if size > MAX_FRAME_BYTES then Stop(FrameTooLarge)
    else if |file| < next then Stop(Truncated)
    else if codec.digest(file[body..body + size]) != file[body + size..next] then Stop(IntegrityFailed)
    else
      match codec.decode(file[body..body + size])
      case None => Stop(FrameInvalid)
      case Some(rows) => Whole(rows, next)
  }

  /** Reading from a frame boundary on. */
  function ParseFrom(codec: Codec, file: Bytes, at: nat): (p: Parsed)
    requires at <= |file|
    ensures at <= p.end <= |file| && (p.error == None ==> p.end == |file|)
    decreases |file| - at
  {
    if at == |file| then Parsed([], at, None)
    else
      match ReadFrame(codec, file, at)
      case Stop(error) => Parsed([], at, Some(error))
      case Whole(rows, next) =>
        var rest := ParseFrom(codec, file, next);
        Parsed(rows + rest.rows, rest.end, rest.error)
  }

  function Parse(codec: Codec, file: Bytes): Parsed {
    if |file| < 8 || file[..8] != FILE_MAGIC then Parsed([], 0, Some(MagicInvalid)) else ParseFrom(codec, file, 8)
  }

  /** The file is whole: its frames hold these rows and nothing follows them. */
  ghost predicate Holds(codec: Codec, file: Bytes, rows: seq<Row>) { Parse(codec, file) == Parsed(rows, |file|, None) }

  lemma WholeFrameStays(codec: Codec, file: Bytes, more: Bytes, at: nat)
    requires at < |file| && ReadFrame(codec, file, at).Whole?
    ensures ReadFrame(codec, file + more, at) == ReadFrame(codec, file, at)
  {
    var all := file + more;
    var size := Size(file, at);
    var body, next := at + 8, at + 8 + size + DIGEST_BYTES;
    SliceOfConcat(file, more, at, at + 8);
    SliceOfConcat(file, more, body, body + size);
    SliceOfConcat(file, more, body + size, next);
  }

  lemma SliceOfConcat(file: Bytes, more: Bytes, i: nat, j: nat)
    requires i <= j <= |file|
    ensures (file + more)[i..j] == file[i..j]
  {
  }

  lemma {:induction false} ParseExtends(codec: Codec, file: Bytes, more: Bytes, at: nat)
    requires at <= |file| && ParseFrom(codec, file, at).error == None
    ensures var whole, tail := ParseFrom(codec, file + more, at), ParseFrom(codec, file + more, |file|);
            whole == Parsed(ParseFrom(codec, file, at).rows + tail.rows, tail.end, tail.error)
    decreases |file| - at
  {
    hide ReadFrame;
    var tail := ParseFrom(codec, file + more, |file|);
    if at == |file| {
      assert [] + tail.rows == tail.rows;
    } else {
      WholeFrameStays(codec, file, more, at);
      var step := ReadFrame(codec, file, at);
      ParseExtends(codec, file, more, step.next);
      RowsAssociate(step.rows, ParseFrom(codec, file, step.next).rows, tail.rows);
    }
  }

  lemma RowsAssociate(a: seq<Row>, b: seq<Row>, c: seq<Row>)
    ensures a + (b + c) == (a + b) + c
  {
  }

  lemma MiddleOfConcat(a: Bytes, b: Bytes, c: Bytes)
    ensures (a + b + c)[|a|..|a| + |b|] == b
  {
  }

  lemma FrameSlices(file: Bytes, size: Bytes, payload: Bytes, digest: Bytes)
    ensures var all, body := file + (size + payload + digest), |file| + |size|;
            && all[|file|..body] == size && all[body..body + |payload|] == payload
            && all[body + |payload|..body + |payload| + |digest|] == digest && |all| == body + |payload| + |digest|
  {
    assert file + (size + payload + digest) == file + size + (payload + digest) == (file + size) + payload + digest
        == (file + size + payload) + digest + [];
    MiddleOfConcat(file, size, payload + digest);
    MiddleOfConcat(file + size, payload, digest);
    MiddleOfConcat(file + size + payload, digest, []);
  }

  /** One whole frame at the end of a file. */
  lemma ParseFrame(codec: Codec, file: Bytes, rows: seq<Row>)
    requires codec.RoundTrips() && |codec.encode(rows)| <= MAX_FRAME_BYTES
    ensures ParseFrom(codec, file + Frame(codec, rows), |file|) == Parsed(rows, |file + Frame(codec, rows)|, None)
  {
    var payload := codec.encode(rows);
    var all, at := file + Frame(codec, rows), |file|;
    FrameSlices(file, Pack(|payload|, 8), payload, codec.digest(payload));
    LimitOf8();
    UnpackPack(|payload|, 8);
    hide Pack, Limit, LittleEndian;
    assert ReadFrame(codec, all, at) == Whole(rows, |all|);
    assert rows + [] == rows;
  }

  lemma LimitOf8()
    ensures Limit(8) > MAX_FRAME_BYTES
  {
    assert Limit(2) == 65536;
    assert Limit(4) == 4294967296;
    assert Limit(6) >= Limit(4);
  }

  /** A frame cut anywhere before its end reads as a torn tail. */
  lemma ParseTorn(codec: Codec, file: Bytes, rows: seq<Row>, cut: nat)
    requires codec.RoundTrips() && |codec.encode(rows)| <= MAX_FRAME_BYTES && 0 < cut < |Frame(codec, rows)|
    ensures ParseFrom(codec, file + Frame(codec, rows)[..cut], |file|) == Parsed([], |file|, Some(Truncated))
  {
    var payload := codec.encode(rows);
    var all, at := file + Frame(codec, rows)[..cut], |file|;
    if cut >= 8 {
      assert all[at..at + 8] == Frame(codec, rows)[..8] == Pack(|payload|, 8);
      LimitOf8();
      UnpackPack(|payload|, 8);
    }
  }

  /** Appending a frame appends its rows; a torn frame adds none and marks where the file is still whole. */
  lemma AppendedFrame(codec: Codec, file: Bytes, held: seq<Row>, rows: seq<Row>, cut: nat)
    requires codec.RoundTrips() && |codec.encode(rows)| <= MAX_FRAME_BYTES && cut <= |Frame(codec, rows)|
    requires Holds(codec, file, held)
    ensures var after := file + Frame(codec, rows)[..cut];
            Parse(codec, after) ==
              if cut == 0 then Parsed(held, |file|, None)
              else if cut < |Frame(codec, rows)| then Parsed(held, |file|, Some(Truncated))
              else Parsed(held + rows, |after|, None)
  {
    var frame := Frame(codec, rows);
    var after := file + frame[..cut];
    assert after[..8] == file[..8];
    ParseExtends(codec, file, frame[..cut], 8);
    if cut == 0 {
      assert after == file;
    } else if cut < |frame| {
      ParseTorn(codec, file, rows, cut);
      assert held + [] == held;
    } else {
      assert frame[..cut] == frame;
      ParseFrame(codec, file, rows);
    }
  }

  /** `_read_file`: the loop with its moving valid end; a repair cuts a torn tail off. */
  method ReadFile(codec: Codec, file: Bytes, repair: bool) returns (rows: seq<Row>, after: Bytes, error: Option<Error>)
    ensures var p := Parse(codec, file);
            if p.error == Some(Truncated) && repair then rows == p.rows && after == file[..p.end] && error == None
            else rows == p.rows && after == file && error == p.error
  {
    rows, after, error := [], file, None;
    if |file| < 8 || file[..8] != FILE_MAGIC { return [], file, Some(MagicInvalid); }
    var validEnd := 8;
    while validEnd < |file|
      invariant 8 <= validEnd <= |file| && after == file && error == None
      invariant var rest := ParseFrom(codec, file, validEnd);
                Parse(codec, file) == Parsed(rows + rest.rows, rest.end, rest.error)
    {
      assert rows + [] == rows;
      match ReadFrame(codec, file, validEnd) {
        case Stop(stopped) =>
          if stopped == Truncated && repair { after := file[..validEnd]; } else { error := Some(stopped); }
          return;
        case Whole(more, next) =>
          RowsAssociate(rows, more, ParseFrom(codec, file, next).rows);
          rows := rows + more;
          validEnd := next;
      }
    }
    assert rows + [] == rows;
  }

  // ----- files of a generation -----

  /** `segment-{number:020d}.vrsj`: listed in name order, which is the order of the numbers. */
  datatype SealedFile = SealedFile(number: nat, file: Bytes)

  datatype Generation = Generation(segments: seq<SealedFile>, head: Option<Bytes>)

  /** The manifest names the current generation; others may lie around. */
  datatype Disk = Disk(current: nat, generations: map<nat, Generation>)

  /** `os.replace` into the directory listing. */
  function FileAway(segments: seq<SealedFile>, s: SealedFile): seq<SealedFile> {
    if segments == [] || s.number < segments[0].number then [s] + segments
    else if s.number == segments[0].number then [s] + segments[1..]
    else [segments[0]] + FileAway(segments[1..], s)
  }

  ghost function SegmentRows(codec: Codec, segments: seq<SealedFile>): seq<Row> {
    if segments == [] then []
    else SegmentRows(codec, segments[..|segments| - 1]) + Parse(codec, segments[|segments| - 1].file).rows
  }

  ghost function HeadRows(codec: Codec, head: Option<Bytes>): seq<Row> {
    match head
    case None => []
    case Some(file) => Parse(codec, file).rows
  }

  /** The journal's history as the files hold it, a torn tail left out. */
  ghost function GenerationRows(codec: Codec, g: Generation): seq<Row> {
    SegmentRows(codec, g.segments) + HeadRows(codec, g.head)
  }

  ghost predicate Numbered(rows: seq<Row>) { forall i :: 0 <= i < |rows| ==> rows[i].number == i + 1 }

  ghost predicate SegmentsWhole(codec: Codec, segments: seq<SealedFile>) {
    forall i :: 0 <= i < |segments| ==> Parse(codec, segments[i].file).error == None
  }

  /** Each segment bears the number of its last row. */
  ghost predicate SegmentsNamed(codec: Codec, segments: seq<SealedFile>) {
    && (forall i, j :: 0 <= i < j < |segments| ==> segments[i].number < segments[j].number)
    && (segments != [] ==> segments[|segments| - 1].number <= |SegmentRows(codec, segments)|)
  }

  /** No head, a whole head, or one with a torn tail; frames are never empty. */
  ghost predicate HeadUsable(codec: Codec, head: Option<Bytes>) {
    match head
    case None => true
    case Some(file) =>
      var p := Parse(codec, file);
      (p.error == None || p.error == Some(Truncated)) && 8 <= p.end && (p.end > 8 ==> p.rows != [])
  }

  ghost predicate HeadWhole(codec: Codec, head: Option<Bytes>) { head.Some? && Parse(codec, head.value).error == None }

  /** What every operation and every crash leaves behind. */
  ghost predicate Recoverable(codec: Codec, g: Generation) {
    && SegmentsWhole(codec, g.segments) && SegmentsNamed(codec, g.segments) && HeadUsable(codec, g.head)
    && Numbered(GenerationRows(codec, g))
  }

  function Repaired(codec: Codec, g: Generation): Generation {
    match g.head
    case None => g
    case Some(file) => g.(head := Some(file[..Parse(codec, file).end]))
  }

  ghost predicate ScanPasses(codec: Codec, g: Generation, repair: bool) {
    && g.head.Some? && SegmentsWhole(codec, g.segments)
    && (var p := Parse(codec, g.head.value); p.error == None || (repair && p.error == Some(Truncated)))
    && Numbered(GenerationRows(codec, g))
  }

  /** Cutting a torn tail off leaves a whole file with the same rows. */
  lemma {:induction false} CutParses(codec: Codec, file: Bytes, at: nat)
    requires at <= |file|
    ensures var p := ParseFrom(codec, file, at);
            ParseFrom(codec, file[..p.end], at) == Parsed(p.rows, p.end, None)
    decreases |file| - at
  {
    hide ReadFrame;
    var p := ParseFrom(codec, file, at);
    if at < |file| && ReadFrame(codec, file, at).Whole? {
      var step := ReadFrame(codec, file, at);
      CutParses(codec, file, step.next);
      CutFrame(codec, file, at, p.end);
    }
  }

  lemma CutFrame(codec: Codec, file: Bytes, at: nat, end: nat)
    requires at < |file| && ReadFrame(codec, file, at).Whole? && ReadFrame(codec, file, at).next <= end <= |file|
    ensures ReadFrame(codec, file[..end], at) == ReadFrame(codec, file, at)
  {
    assert file == file[..end] + file[end..];
    var cut, size := file[..end], Size(file, at);
    SliceOfConcat(cut, file[end..], at, at + 8);
    SliceOfConcat(cut, file[end..], at + 8, at + 8 + size);
    SliceOfConcat(cut, file[end..], at + 8 + size, at + 8 + size + DIGEST_BYTES);
  }

  /** Repair keeps the rows, and the file it leaves is whole. */
  lemma RepairKeepsRows(codec: Codec, g: Generation)
    requires Recoverable(codec, g) && g.head.Some?
    ensures Recoverable(codec, Repaired(codec, g)) && HeadWhole(codec, Repaired(codec, g).head)
    ensures GenerationRows(codec, Repaired(codec, g)) == GenerationRows(codec, g)
  {
    var file := g.head.value;
    CutParses(codec, file, 8);
    var cut := file[..Parse(codec, file).end];
    assert cut[..8] == file[..8];
  }

  // ----- scanning -----

  /** Rows numbered on from `expected`. */
  method CheckRows(rows: seq<Row>, expected: nat) returns (ok: bool)
    ensures ok <==> forall i :: 0 <= i < |rows| ==> rows[i].number == expected + i
  {
    ok := true;
    for i := 0 to |rows|
      invariant ok <==> forall j :: 0 <= j < i ==> rows[j].number == expected + j
    {
      if rows[i].number != expected + i { ok := false; }
    }
  }

  lemma NumberedConcat(a: seq<Row>, b: seq<Row>)
    ensures Numbered(a + b) <==> Numbered(a) && forall i :: 0 <= i < |b| ==> b[i].number == |a| + 1 + i
  {
    if Numbered(a + b) {
      forall i | 0 <= i < |a| ensures a[i].number == i + 1 { assert (a + b)[i] == a[i]; }
      forall i | 0 <= i < |b| ensures b[i].number == |a| + 1 + i { assert (a + b)[|a| + i] == b[i]; }
    }
  }

  lemma {:induction false} SegmentRowsPrefix(codec: Codec, segments: seq<SealedFile>, i: nat)
    requires i <= |segments|
    ensures SegmentRows(codec, segments[..i]) <= SegmentRows(codec, segments)
    decreases |segments|
  {
    if i < |segments| {
      var init := segments[..|segments| - 1];
      SegmentRowsPrefix(codec, init, i);
      assert init[..i] == segments[..i];
    } else {
      assert segments[..i] == segments;
    }
  }

  function Last(rows: seq<Row>): Option<Row> { if rows == [] then None else Some(rows[|rows| - 1]) }

  lemma OneMoreSegment(codec: Codec, segments: seq<SealedFile>, s: SealedFile)
    ensures SegmentRows(codec, segments + [s]) == SegmentRows(codec, segments) + Parse(codec, s.file).rows
  {
    assert (segments + [s])[..|segments|] == segments;
  }

  lemma NoSegments(codec: Codec, segments: seq<SealedFile>)
    ensures SegmentRows(codec, segments[..0]) == []
  {
  }

  /** `_scan`: every file in order, numbers without a gap, the head's torn tail cut when asked to. */
  method ScanFiles(codec: Codec, g: Generation, repair: bool)
    returns (head: Option<Row>, count: nat, after: Generation, error: Option<Error>)
    requires g.head.Some?
    ensures error == None <==> ScanPasses(codec, g, repair)
    ensures error == None ==>
              && after == Repaired(codec, g) && count == |GenerationRows(codec, g)|
                 && head == Last(GenerationRows(codec, g))
    ensures error.Some? ==> after == g
  {
    NoSegments(codec, g.segments);
    hide Parse, SegmentRows;
    head, count, after, error := None, 0, g, None;
    for i := 0 to |g.segments|
      invariant SegmentsWhole(codec, g.segments[..i]) && Numbered(SegmentRows(codec, g.segments[..i]))
      invariant count == |SegmentRows(codec, g.segments[..i])| && head == Last(SegmentRows(codec, g.segments[..i]))
      invariant error == None && after == g
    {
      var rows, same;
      rows, same, error := ReadFile(codec, g.segments[i].file, false);
      if error.Some? { return; }
      var before, more := g.segments[..i], g.segments[..i + 1];
      assert more == before + [g.segments[i]];
      OneMoreSegment(codec, before, g.segments[i]);
      ghost var earlier := SegmentRows(codec, before);
      var ok := CheckRows(rows, count + 1);
      NumberedConcat(earlier, rows);
      SegmentRowsPrefix(codec, g.segments, i + 1);
      if !ok {
        error := Some(SequenceInvalid);
        PrefixNotNumbered(earlier + rows, SegmentRows(codec, g.segments), GenerationRows(codec, g));
        return;
      }
      head, count := if rows == [] then head else Last(rows), count + |rows|;
    }
    assert g.segments[..|g.segments|] == g.segments;
    var rows, file;
    rows, file, error := ReadFile(codec, g.head.value, repair);
    if error.Some? { return; }
    var ok := CheckRows(rows, count + 1);
    NumberedConcat(SegmentRows(codec, g.segments), rows);
    if !ok { error := Some(SequenceInvalid); return; }
    head, count := if rows == [] then head else Last(rows), count + |rows|;
    after := g.(head := Some(file));
    WholeEnds(codec, g.head.value);
  }

  lemma WholeEnds(codec: Codec, file: Bytes)
    ensures Parse(codec, file).error == None ==> Parse(codec, file).end == |file| && file[..|file|] == file
  {
  }

  lemma PrefixNotNumbered(a: seq<Row>, b: seq<Row>, c: seq<Row>)
    requires a <= b && b <= c && !Numbered(a)
    ensures !Numbered(c)
  {
    var i :| 0 <= i < |a| && a[i].number != i + 1;
    assert c[i] == b[i] == a[i];
  }

  // ----- appending, rotating, rewriting -----

  /** `[[first + index, *row] for index, row in enumerate(rows)]` after `n` rows. */
  function Number(contents: seq<Content>, n: nat): (rows: seq<Row>)
    ensures |rows| == |contents|
  {
    seq(|contents|, i requires 0 <= i < |contents| => Row(n + 1 + i, contents[i]))
  }

  function Numbers(n: nat, k: nat): seq<int> { seq(k, i => n + 1 + i) }

  /** The head with a frame, or part of one, at its end. */
  lemma AppendKeeps(codec: Codec, g: Generation, contents: seq<Content>, cut: nat)
    requires codec.RoundTrips() && Recoverable(codec, g) && HeadWhole(codec, g.head) && contents != []
    requires var frame := Frame(codec, Number(contents, |GenerationRows(codec, g)|));
             |codec.encode(Number(contents, |GenerationRows(codec, g)|))| <= MAX_FRAME_BYTES && cut <= |frame|
    ensures var rows := Number(contents, |GenerationRows(codec, g)|);
            var after := g.(head := Some(g.head.value + Frame(codec, rows)[..cut]));
            && Recoverable(codec, after)
            && (cut < |Frame(codec, rows)| ==> GenerationRows(codec, after) == GenerationRows(codec, g))
            && (cut == |Frame(codec, rows)| ==>
                 HeadWhole(codec, after.head) && GenerationRows(codec, after) == GenerationRows(codec, g) + rows)
  {
    var before := GenerationRows(codec, g);
    var rows := Number(contents, |before|);
    var held := Parse(codec, g.head.value);
    WholeEnds(codec, g.head.value);
    AppendedFrame(codec, g.head.value, held.rows, rows, cut);
    hide Frame, Parse;
    NumberedConcat(before, rows);
    RowsAssociate(SegmentRows(codec, g.segments), held.rows, rows);
    assert cut == |Frame(codec, rows)| && cut > 0 ==> held.rows + rows != [];
  }

  lemma {:induction false} FileAwayLast(segments: seq<SealedFile>, s: SealedFile)
    requires forall i :: 0 <= i < |segments| ==> segments[i].number < s.number
    ensures FileAway(segments, s) == segments + [s]
  {
    if segments != [] {
      FileAwayLast(segments[1..], s);
      assert segments == [segments[0]] + segments[1..];
    }
  }

  lemma FilesBelow(codec: Codec, g: Generation)
    requires Recoverable(codec, g) && HeadWhole(codec, g.head) && |g.head.value| > 8
    ensures forall i :: 0 <= i < |g.segments| ==> g.segments[i].number < |GenerationRows(codec, g)|
  {
    WholeEnds(codec, g.head.value);
    hide Parse;
    assert |HeadRows(codec, g.head)| > 0;
    forall i | 0 <= i < |g.segments| ensures g.segments[i].number <= |SegmentRows(codec, g.segments)| {
      if i < |g.segments| - 1 { assert g.segments[i].number < g.segments[|g.segments| - 1].number; }
    }
  }

  /** Moving a non-empty head into a segment keeps every row, whether or not the new head is there yet. */
  lemma RotateKeeps(codec: Codec, g: Generation, head: Option<Bytes>)
    requires Recoverable(codec, g) && HeadWhole(codec, g.head) && |g.head.value| > 8 && head in {None, Some(FILE_MAGIC)}
    ensures var n := |GenerationRows(codec, g)|;
            var after := Generation(FileAway(g.segments, SealedFile(n, g.head.value)), head);
            && Recoverable(codec, after) && GenerationRows(codec, after) == GenerationRows(codec, g)
            && after.segments == g.segments + [SealedFile(n, g.head.value)]
            && (head.Some? ==> HeadWhole(codec, head))
  {
    hide Recoverable, GenerationRows, Parse, FileAway;
    FilesBelow(codec, g);
    FileAwayLast(g.segments, SealedFile(|GenerationRows(codec, g)|, g.head.value));
    FiledAway(codec, g, head);
  }

  lemma FiledAway(codec: Codec, g: Generation, head: Option<Bytes>)
    requires Recoverable(codec, g) && HeadWhole(codec, g.head) && |g.head.value| > 8 && head in {None, Some(FILE_MAGIC)}
    ensures var n := |GenerationRows(codec, g)|;
            var after := Generation(g.segments + [SealedFile(n, g.head.value)], head);
            && Recoverable(codec, after) && GenerationRows(codec, after) == GenerationRows(codec, g)
            && (head.Some? ==> HeadWhole(codec, head))
  {
    var n, file := |GenerationRows(codec, g)|, g.head.value;
    FilesBelow(codec, g);
    OneMoreSegment(codec, g.segments, SealedFile(n, file));
    FreshHead(codec);
    hide Parse, SegmentRows;
    assert GenerationRows(codec, g) + [] == GenerationRows(codec, g);
  }

  lemma FreshHead(codec: Codec)
    ensures Holds(codec, FILE_MAGIC, [])
  {
    assert FILE_MAGIC[..8] == FILE_MAGIC;
  }

  /** Every batch of at most 512 rows fits into a frame. */
  ghost predicate FramesFit(codec: Codec, rows: seq<Row>)
    decreases |rows|
  {
    rows == [] ||
    (var k := if |rows| < 512 then |rows| else 512;
     |codec.encode(rows[..k])| <= MAX_FRAME_BYTES && FramesFit(codec, rows[k..]))
  }

  /** The file of a rewritten generation: frames of up to 512 rows. */
  method BuildFile(codec: Codec, rows: seq<Row>) returns (file: Bytes, error: Option<Error>)
    requires codec.RoundTrips()
    ensures error == if FramesFit(codec, rows) then None else Some(FrameTooLarge)
    ensures error == None ==> Holds(codec, file, rows) && (rows == [] ==> file == FILE_MAGIC)
  {
    file, error := FILE_MAGIC, None;
    FreshHead(codec);
    var i := 0;
    assert rows[..0] == [] && rows[0..] == rows;
    while i < |rows|
      invariant i <= |rows| && (i == 0 ==> file == FILE_MAGIC) && Holds(codec, file, rows[..i])
                && FramesFit(codec, rows) == FramesFit(codec, rows[i..])
    {
      var k := if |rows| - i < 512 then |rows| - i else 512;
      var batch := rows[i..i + k];
      assert rows[i..][..k] == batch && rows[i..][k..] == rows[i + k..];
      if |codec.encode(batch)| > MAX_FRAME_BYTES { return file, Some(FrameTooLarge); }
      var frame := Frame(codec, batch);
      AppendedFrame(codec, file, rows[..i], batch, |frame|);
      assert frame[..|frame|] == frame && rows[..i] + batch == rows[..i + k];
      file := file + frame;
      i := i + k;
    }
    assert rows[..|rows|] == rows;
  }

  /** How a rotation ends: wholly, with the move of the head refused, or with the new head still missing. */
  datatype RotateFate = Rotates | MoveFails | HeadFails | CrashesBetween

  /** How an append ends: `cut` counts the bytes of the frame that reached the file. */
  datatype AppendFate = Completes(rotation: RotateFate) | WriteFails(cut: nat) | Crashes(cut: nat)

  /** Bytes of the frame that reach the file. */
  function Reached(fate: AppendFate, size: nat): (cut: nat)
    ensures cut <= size && (fate.Completes? ==> cut == size)
  {
    match fate
    case WriteFails(cut) => if cut < size then cut else size
    case Crashes(cut) => if cut < size then cut else size
    case _ => size
  }

  datatype Rotation = Rotated | NotNeeded | Refused | Stopped

  /** How an append ends when it is not refused and its frame is written whole. */
  function RotationOf(fate: RotateFate): Rotation {
    match fate
    case Rotates => Rotated
    case CrashesBetween => Stopped
    case _ => Refused
  }

  datatype RewriteFate = Switches | CrashesBefore(partial: Bytes) | CrashesAfter

  /** `Raised`: the rows are committed, but the rotation after them failed and the call reports it. */
  datatype Outcome = Done(numbers: seq<int>) | Failed(error: Error) | Raised | Interrupted

  /** What the cached head says about the history. */
  lemma ReadyFacts(codec: Codec, g: Generation)
    requires Recoverable(codec, g) && HeadWhole(codec, g.head)
    ensures var rows := GenerationRows(codec, g);
            && (Last(rows) == None ==> rows == [])
               && (Last(rows).Some? ==> rows != [] && Last(rows).value.number == |rows|)
            && (|g.head.value| > 8 ==> rows != [])
  {
    WholeEnds(codec, g.head.value);
  }

  lemma LastConcat(rows: seq<Row>, more: seq<Row>)
    requires more != []
    ensures Last(rows + more) == Last(more)
  {
  }

  predicate InRange(row: Row, after: int, upto: Option<int>) {
    after < row.number && (upto.Some? ==> row.number <= upto.value)
  }

  function Between(rows: seq<Row>, after: int, upto: Option<int>): seq<Row> {
    if rows == [] then []
    else Between(rows[..|rows| - 1], after, upto)
         + (if InRange(rows[|rows| - 1], after, upto) then [rows[|rows| - 1]] else [])
  }

  lemma {:induction false} BetweenConcat(a: seq<Row>, b: seq<Row>, after: int, upto: Option<int>)
    ensures Between(a + b, after, upto) == Between(a, after, upto) + Between(b, after, upto)
  {
    if b == [] {
      assert a + b == a;
    } else {
      BetweenConcat(a, b[..|b| - 1], after, upto);
      assert (a + b)[..|a + b| - 1] == a + b[..|b| - 1];
    }
  }

  lemma {:induction false} BetweenNone(rows: seq<Row>, after: int, upto: Option<int>)
    requires forall i :: 0 <= i < |rows| ==> !InRange(rows[i], after, upto)
    ensures Between(rows, after, upto) == []
  {
    if rows != [] { BetweenNone(rows[..|rows| - 1], after, upto); }
  }

  /** The rows of one file that are in range; reading stops for good at the first row beyond it. */
  method Select(more: seq<Row>, after: int, upto: Option<int>, ghost read: seq<Row>, ghost all: seq<Row>)
    returns (kept: seq<Row>, done: bool)
    requires Numbered(all) && read + more <= all
    ensures Between(read + more, after, upto) == Between(read, after, upto) + kept
    ensures done ==> Between(all, after, upto) == Between(read, after, upto) + kept
  {
    hide Numbered;
    kept, done := [], false;
    BetweenConcat(read, more, after, upto);
    for i := 0 to |more|
      invariant kept == Between(more[..i], after, upto)
    {
      assert more[i] == (read + more)[|read| + i] == all[|read| + i];
      assert more[..i + 1][..i] == more[..i];
      if more[i].number > after {
        if upto.Some? && more[i].number > upto.value {
          BetweenRest(read + more, |read| + i, all, after, upto);
          assert (read + more)[..|read| + i] == read + more[..i];
          BetweenConcat(read, more[..i], after, upto);
          done := true;
          return;
        }
        kept := kept + [more[i]];
      }
    }
    assert more[..|more|] == more;
  }

  lemma BetweenRest(part: seq<Row>, k: nat, all: seq<Row>, after: int, upto: Option<int>)
    requires Numbered(all) && part <= all && k < |part| && upto.Some? && part[k].number > upto.value
    ensures Between(part, after, upto) == Between(part[..k], after, upto) == Between(all, after, upto)
  {
    assert part == part[..k] + part[k..] && all == part[..k] + all[k..];
    forall i | 0 <= i < |part[k..]| ensures !InRange(part[k..][i], after, upto) { assert part[k..][i] == all[k + i]; }
    forall i | 0 <= i < |all[k..]| ensures !InRange(all[k..][i], after, upto) { assert all[k..][i] == all[k + i]; }
    BetweenConcat(part[..k], part[k..], after, upto);
    BetweenConcat(part[..k], all[k..], after, upto);
    BetweenNone(part[k..], after, upto);
    BetweenNone(all[k..], after, upto);
  }

  /** The rows up to one segment further are a prefix of all of them. */
  lemma NextSegment(codec: Codec, segments: seq<SealedFile>, i: nat)
    requires i < |segments|
    ensures SegmentRows(codec, segments[..i + 1])
         == SegmentRows(codec, segments[..i]) + Parse(codec, segments[i].file).rows
    ensures SegmentRows(codec, segments[..i]) + Parse(codec, segments[i].file).rows <= SegmentRows(codec, segments)
  {
    hide Parse, SegmentRows;
    assert segments[..i + 1] == segments[..i] + [segments[i]];
    OneMoreSegment(codec, segments[..i], segments[i]);
    SegmentRowsPrefix(codec, segments, i + 1);
  }

  /** The segments in order, until a row lies beyond the range. */
  method SelectSegments(codec: Codec, segments: seq<SealedFile>, after: int, upto: Option<int>, ghost all: seq<Row>)
    returns (rows: seq<Row>, done: bool)
    requires Numbered(all) && SegmentRows(codec, segments) <= all
    ensures rows == Between(if done then all else SegmentRows(codec, segments), after, upto)
  {
    NoSegments(codec, segments);
    BetweenNone([], after, upto);
    hide Parse, SegmentRows, Numbered, Between, InRange;
    rows, done := [], false;
    for i := 0 to |segments|
      invariant rows == Between(SegmentRows(codec, segments[..i]), after, upto)
    {
      NextSegment(codec, segments, i);
      var more, same, error := ReadFile(codec, segments[i].file, false);
      var kept;
      kept, done := Select(more, after, upto, SegmentRows(codec, segments[..i]), all);
      rows := rows + kept;
      if done { return; }
    }
    assert segments[..|segments|] == segments;
  }

  method SelectRows(codec: Codec, g: Generation, after: int, upto: Option<int>)
    returns (rows: seq<Row>, error: Option<Error>)
    requires Recoverable(codec, g) && HeadWhole(codec, g.head)
    ensures error == None && rows == Between(GenerationRows(codec, g), after, upto)
  {
    hide Parse, SegmentRows, Numbered, SegmentsNamed, Between, HeadUsable, InRange;
    ghost var all := GenerationRows(codec, g);
    var done;
    error := None;
    rows, done := SelectSegments(codec, g.segments, after, upto, all);
    if done { return; }
    var more, same;
    more, same, error := ReadFile(codec, g.head.value, false);
    var kept, beyond := Select(more, after, upto, SegmentRows(codec, g.segments), all);
    rows := rows + kept;
  }

  // ----- the disk as a value -----

  ghost predicate SoundDisk(codec: Codec, disk: Disk) {
    codec.RoundTrips() && disk.current in disk.generations && Recoverable(codec, disk.generations[disk.current])
  }

  ghost function HistoryOf(codec: Codec, disk: Disk): seq<Row> {
    if disk.current in disk.generations then GenerationRows(codec, disk.generations[disk.current]) else []
  }

  /** A running journal: the head file is whole and the cached head and count are those of the history. */
  ghost predicate Attached(codec: Codec, disk: Disk, head: Option<Row>, count: nat) {
    && SoundDisk(codec, disk) && HeadWhole(codec, disk.generations[disk.current].head)
    && head == Last(HistoryOf(codec, disk)) && count == |HistoryOf(codec, disk)|
  }

  function With(disk: Disk, g: Generation): Disk { Disk(disk.current, disk.generations[disk.current := g]) }

  function HeadFile(disk: Disk): Bytes {
    if disk.current in disk.generations && disk.generations[disk.current].head.Some?
       then disk.generations[disk.current].head.value else []
  }

  lemma AttachedFacts(codec: Codec, disk: Disk, head: Option<Row>, count: nat)
    requires Attached(codec, disk, head, count)
    ensures disk.current in disk.generations && HeadWhole(codec, disk.generations[disk.current].head)
    ensures Numbered(HistoryOf(codec, disk)) && count == |HistoryOf(codec, disk)|
    ensures head.Some? ==> head.value.number == count
    ensures head == None ==> count == 0
    ensures |HeadFile(disk)| > 8 ==> head.Some?
  {
    ReadyFacts(codec, disk.generations[disk.current]);
  }

  /** Bytes written at the end of the head file. */
  function Framed(disk: Disk, bytes: Bytes): Disk {
    if disk.current in disk.generations
       then With(disk, disk.generations[disk.current].(head := Some(HeadFile(disk) + bytes))) else disk
  }

  ghost predicate Grew(codec: Codec, before: Disk, after: Disk, contents: seq<Content>, count: nat) {
    HistoryOf(codec, after) == HistoryOf(codec, before) + Number(contents, count)
  }

  /** A frame written whole, or cut off after `cut` bytes. */
  lemma WrittenDisk(codec: Codec, disk: Disk, head: Option<Row>, count: nat, contents: seq<Content>, cut: nat)
    requires Attached(codec, disk, head, count) && contents != []
    requires |codec.encode(Number(contents, count))| <= MAX_FRAME_BYTES
             && cut <= |Frame(codec, Number(contents, count))|
    ensures var rows := Number(contents, count);
            var after := Framed(disk, Frame(codec, rows)[..cut]);
            && SoundDisk(codec, after)
            && (if cut < |Frame(codec, rows)| then HistoryOf(codec, after) == HistoryOf(codec, disk)
                else Grew(codec, disk, after, contents, count) && Attached(codec, after, Last(rows), count + |rows|))
  {
    AttachedIsSound(codec, disk, head, count);
    hide Recoverable, GenerationRows, HeadWhole, Frame, Last, Number, Codec.RoundTrips;
    AppendKeeps(codec, disk.generations[disk.current], contents, cut);
    assert HistoryOf(codec, disk) == GenerationRows(codec, disk.generations[disk.current]);
    LastConcat(HistoryOf(codec, disk), Number(contents, count));
  }

  lemma RotatedDisk(codec: Codec, disk: Disk, head: Option<Row>, count: nat, file: Option<Bytes>)
    requires Attached(codec, disk, head, count) && |HeadFile(disk)| > 8 && file in {None, Some(FILE_MAGIC)}
    ensures var g := disk.generations[disk.current];
            var after := With(disk, Generation(FileAway(g.segments, SealedFile(count, HeadFile(disk))), file));
            && SoundDisk(codec, after) && HistoryOf(codec, after) == HistoryOf(codec, disk)
            && (file.Some? ==> Attached(codec, after, head, count) && HeadFile(after) == FILE_MAGIC)
  {
    hide Recoverable, GenerationRows, HeadWhole, FileAway, Last;
    AttachedFacts(codec, disk, head, count);
    RotateKeeps(codec, disk.generations[disk.current], file);
  }

  lemma RewrittenDisk(codec: Codec, after: Disk, file: Bytes, rows: seq<Row>)
    requires codec.RoundTrips() && Holds(codec, file, rows) && (rows == [] ==> file == FILE_MAGIC)
    requires after.current in after.generations && after.generations[after.current] == Generation([], Some(file))
    ensures HistoryOf(codec, after) == rows && (SoundDisk(codec, after) <==> Numbered(rows))
    ensures Numbered(rows) ==> Attached(codec, after, Last(rows), |rows|)
  {
    RewrittenRows(codec, file, rows);
    hide Recoverable, GenerationRows, HeadWhole, Last, Parse;
  }

  ghost predicate MisnumberedDisk(codec: Codec, disk: Disk) {
    && disk.current in disk.generations && disk.generations[disk.current].head.Some?
    && !Numbered(GenerationRows(codec, disk.generations[disk.current]))
  }

  lemma RewrittenMisnumbered(codec: Codec, after: Disk, file: Bytes, rows: seq<Row>)
    requires Holds(codec, file, rows) && after.current in after.generations
    requires after.generations[after.current] == Generation([], Some(file))
    ensures !Numbered(rows) ==> MisnumberedDisk(codec, after)
  {
    assert [] + rows == rows;
  }

  /** Opening repairs what can be repaired and changes no row. */
  lemma OpenedDisk(codec: Codec, disk: Disk, g: Generation, repair: bool)
    requires SoundDisk(codec, disk)
    requires var now := disk.generations[disk.current];
             g == now || (now.head == None && g == now.(head := Some(FILE_MAGIC)))
    ensures HistoryOf(codec, With(disk, g)) == HistoryOf(codec, disk) && SoundDisk(codec, With(disk, g))
    ensures g.head.Some? ==> (ScanPasses(codec, g, repair) <==> repair || HeadWhole(codec, g.head))
    ensures g.head.Some? ==>
              && HistoryOf(codec, With(disk, Repaired(codec, g))) == HistoryOf(codec, disk) == GenerationRows(codec, g)
              && Attached(codec, With(disk, Repaired(codec, g)), Last(HistoryOf(codec, disk)), |HistoryOf(codec, disk)|)
  {
    FreshHead(codec);
    if g.head.Some? { RepairKeepsRows(codec, g); }
  }

  /** What an append answers. */
  ghost function AppendAnswer(codec: Codec, disk: Disk, writable: bool, contents: seq<Content>, fate: AppendFate)
    : Outcome
  {
    var n := |HistoryOf(codec, disk)|;
    var rows := Number(contents, n);
    if !writable then Failed(ReadOnly)
    else if contents == [] then Done([])
    else if |codec.encode(rows)| > MAX_FRAME_BYTES then Failed(FrameTooLarge)
    else
      match fate
      case WriteFails(_) => Failed(WriteFailed)
      case Crashes(_) => Interrupted
      case Completes(rotation) =>
        if |HeadFile(disk)| + |Frame(codec, rows)| < ROTATE_BYTES then Done(Numbers(n, |contents|))
        else
          match RotationOf(rotation)
          case Rotated => Done(Numbers(n, |contents|))
          case Stopped => Interrupted
          case _ => Raised
  }

  /** Whether the frame of an append reaches the file whole. */
  ghost predicate Lands(codec: Codec, disk: Disk, contents: seq<Content>, fate: AppendFate) {
    fate.Crashes? ==> fate.cut >= |Frame(codec, Number(contents, |HistoryOf(codec, disk)|))|
  }

  /** What a rewrite answers. */
  ghost function RewriteAnswer(codec: Codec, disk: Disk, writable: bool, rows: seq<Row>, name: nat, fate: RewriteFate)
    : Outcome
  {
    if !writable then Failed(ReadOnly)
    else if name in disk.generations then Failed(GenerationExists)
    else if fate.CrashesBefore? then Interrupted
    else if !FramesFit(codec, rows) then Failed(FrameTooLarge)
    else if fate.CrashesAfter? then Interrupted
    else if Numbered(rows) then Done([])
    else Failed(SequenceInvalid)
  }

  class Journal {
    const codec: Codec
    var disk: Disk
    var writable: bool
    /** False once the process is gone; only `Open` brings the journal back. */
    var up: bool
    var head: Option<Row>
    var count: nat

    ghost predicate Sound() reads this { SoundDisk(codec, disk) }

    ghost function History(): seq<Row> reads this { HistoryOf(codec, disk) }

    ghost predicate Ready() reads this { up && Attached(codec, disk, head, count) }

    /** A store that did not exist: a generation with an empty head, then the manifest. */
    constructor (codec: Codec, generation: nat)
      requires codec.RoundTrips()
      ensures Ready() && History() == [] && this.codec == codec && writable
    {
      this.codec, writable, up, head, count := codec, true, true, None, 0;
      disk := Disk(generation, map[generation := Generation([], Some(FILE_MAGIC))]);
      new;
      FreshHead(codec);
    }

    /** The generation in use is readable but its rows are not numbered: what an unchecked rewrite leaves. */
    ghost predicate Misnumbered() reads this { MisnumberedDisk(codec, disk) }

    /**
     Opening a store, after whatever happened to it: the rows are the history, a writer cuts a torn tail off
     and recreates a head lost in a rotation.
     */
    method Open(writable: bool) returns (error: Option<Error>)
      modifies this
      ensures old(Sound()) ==>
                && Sound() && History() == old(History())
                && (error == None <==> writable || HeadWhole(codec, old(disk.generations[disk.current].head)))
      ensures old(Sound()) && error == None ==> Ready() && this.writable == writable
      ensures old(Misnumbered()) ==> error.Some? && disk == old(disk)
      ensures error.Some? ==> !up
    {
      hide SoundDisk, HistoryOf, Attached, ScanPasses, Repaired, GenerationRows, Last;
      this.writable, up := writable, false;
      SoundHasCurrent(codec, disk);
      if disk.current !in disk.generations { return Some(GenerationMissing); }
      var g := disk.generations[disk.current];
      if g.head == None {
        if !writable { return Some(HeadMissing); }
        g := g.(head := Some(FILE_MAGIC));
      }
      if old(Sound()) { OpenedDisk(codec, disk, g, writable); }
      if old(Misnumbered()) { MisnumberedFails(codec, disk, writable); }
      ghost var before := disk;
      disk := With(disk, g);
      var after;
      head, count, after, error := ScanFiles(codec, g, writable);
      if error.Some? { return; }
      disk := With(disk, after);
      assert disk == With(before, after);
      up := true;
    }

    /** The write of one frame: whole, or cut off by a crash. */
    method WriteFrame(contents: seq<Content>, fate: AppendFate) returns (outcome: Outcome)
      requires Ready() && !fate.WriteFails? && contents != []
               && |codec.encode(Number(contents, count))| <= MAX_FRAME_BYTES
      modifies this`disk, this`up, this`head, this`count
      ensures Sound() && (up <==> !outcome.Interrupted?) && (up ==> Ready()) && (fate.Completes? ==> outcome.Done?)
              && !outcome.Raised?
      ensures FrameWritten(codec, old(disk), disk, contents, old(count), outcome)
      ensures outcome == if fate.Crashes? then Interrupted else Done(Numbers(old(count), |contents|))
      ensures fate.Crashes? ==>
                if Lands(codec, old(disk), contents, fate) then Grew(codec, old(disk), disk, contents, old(count))
                else HistoryOf(codec, disk) == HistoryOf(codec, old(disk))
      ensures fate.Completes? ==>
                |HeadFile(disk)| == |HeadFile(old(disk))| + |Frame(codec, Number(contents, old(count)))|
    {
      AttachedFacts(codec, disk, head, count);
      AttachedIsSound(codec, disk, head, count);
      hide SoundDisk, HistoryOf, Attached, Frame, Number, Numbers, Reached, Codec.RoundTrips, Framed, HeadFile, With,
           Last, Grew;
      var n := if head == None then 0 else head.value.number;
      var framed := Number(contents, n);
      var body := Frame(codec, framed);
      var cut := Reached(fate, |body|);
      WrittenDisk(codec, disk, head, count, contents, cut);
      CutSize(codec, disk, contents, count, fate, cut);
      FramedSize(disk, body[..cut]);
      disk := Framed(disk, body[..cut]);
      if fate.Crashes? { up := false; return Interrupted; }
      head, count := Last(framed), count + |framed|;
      outcome := Done(Numbers(n, |contents|));
    }

    /** `append`: one frame for the whole batch, then a rotation once the head is long enough. */
    method Append(contents: seq<Content>, fate: AppendFate) returns (outcome: Outcome)
      requires Ready()
      modifies this
      ensures Sound() && (up ==> Ready()) && (outcome.Done? || outcome.Failed? ==> up) && (outcome.Interrupted? ==> !up)
      ensures writable == old(writable)
      ensures outcome == AppendAnswer(codec, old(disk), writable, contents, fate)
      ensures outcome.Failed? ==> disk == old(disk)
      ensures outcome.Done? || outcome.Raised? ==>
                History() == old(History()) + Number(contents, |old(History())|)
      ensures outcome.Done? ==> outcome.numbers == Numbers(|old(History())|, |contents|)
      ensures outcome.Interrupted? ==>
                if Lands(codec, old(disk), contents, fate) then
                  History() == old(History()) + Number(contents, |old(History())|)
                else History() == old(History())
    {
      AttachedFacts(codec, disk, head, count);
      AttachedIsSound(codec, disk, head, count);
      hide SoundDisk, HistoryOf, Attached, HeadFile, Frame, Number, Numbers, With;
      if !writable { return Failed(ReadOnly); }
      if contents == [] {
        NumberNothing(|History()|);
        assert History() + [] == History();
        return Done([]);
      }
      if |codec.encode(Number(contents, count))| > MAX_FRAME_BYTES { return Failed(FrameTooLarge); }
      // after a failed write the partial frame is truncated away again
      if fate.WriteFails? { return Failed(WriteFailed); }
      outcome := WriteFrame(contents, fate);
      if outcome.Done? && |HeadFile(disk)| >= ROTATE_BYTES {
        var rotated := Rotate(fate.rotation);
        match rotated
        case Stopped => outcome := Interrupted;
        case Refused => outcome := Raised;
        case _ =>
      }
    }

    /** `rotate`: the head becomes a segment, then a new head appears; a failure may come before or in between. */
    method Rotate(fate: RotateFate) returns (rotated: Rotation)
      requires Ready()
      modifies this
      ensures Sound() && (up ==> Ready()) && History() == old(History()) && writable == old(writable)
      ensures rotated.NotNeeded? <==> !writable || |HeadFile(old(disk))| <= |FILE_MAGIC|
      ensures !rotated.NotNeeded? ==> rotated == RotationOf(fate)
      ensures rotated.NotNeeded? ==> up && disk == old(disk)
      ensures rotated.Rotated? ==> up && fate.Rotates? && HeadFile(disk) == FILE_MAGIC
      ensures rotated.Refused? ==> fate in {MoveFails, HeadFails} && (up <==> fate.MoveFails?)
      ensures rotated.Stopped? ==> fate.CrashesBetween? && !up
    {
      AttachedFacts(codec, disk, head, count);
      AttachedIsSound(codec, disk, head, count);
      hide SoundDisk, HistoryOf, Attached, FileAway, With, HeadFile, Codec.RoundTrips;
      if !writable || |HeadFile(disk)| <= |FILE_MAGIC| { return NotNeeded; }
      if fate.MoveFails? { return Refused; }
      RotatedDisk(codec, disk, head, count, None);
      RotatedDisk(codec, disk, head, count, Some(FILE_MAGIC));
      var segments := FileAway(disk.generations[disk.current].segments, SealedFile(head.value.number, HeadFile(disk)));
      WithTwice(disk, Generation(segments, None), Some(FILE_MAGIC));
      disk := With(disk, Generation(segments, None));
      if !fate.Rotates? {
        // without a head file this object can neither read nor append any more
        up := false;
        return if fate.HeadFails? then Refused else Stopped;
      }
      disk := With(disk, Generation(segments, Some(FILE_MAGIC)));
      rotated := Rotated;
    }

    /**
     `rewrite`: a complete new generation, then the manifest names it. The rows are not checked before the
     switch: unnumbered ones leave a store that no longer opens.
     */
    method Rewrite(rows: seq<Row>, name: nat, fate: RewriteFate) returns (outcome: Outcome)
      requires Ready()
      modifies this
      ensures writable == old(writable)
      ensures outcome == RewriteAnswer(codec, old(disk), writable, rows, name, fate)
      ensures outcome.Done? ==> Numbered(rows) && Ready() && History() == rows
      ensures outcome.Interrupted? ==>
                && !up
                && if fate.CrashesBefore? then Sound() && History() == old(History())
                   else History() == rows && (if Numbered(rows) then Sound() else Misnumbered())
      ensures outcome.Failed? && outcome.error != SequenceInvalid ==> Ready() && disk == old(disk)
      ensures outcome == Failed(SequenceInvalid) ==>
                && !Numbered(rows) && History() == rows && Misnumbered()
                && up && head == old(head) && count == old(count)
      ensures !outcome.Raised? && (Numbered(rows) ==> Sound() && (up ==> Ready()))
    {
      AttachedIsSound(codec, disk, head, count);
      if !writable { return Failed(ReadOnly); }
      if name in disk.generations { return Failed(GenerationExists); }
      if fate.CrashesBefore? {
        disk := Disk(disk.current, disk.generations[name := Generation([], Some(fate.partial))]);
        up := false;
        return Interrupted;
      }
      assert codec.RoundTrips();
      hide SoundDisk, HistoryOf, Attached, ScanPasses, Repaired, GenerationRows, Last, FramesFit, Numbered, Parse,
           Recoverable,
           HeadWhole, Codec.RoundTrips;
      var file, error := BuildFile(codec, rows);
      if error.Some? { return Failed(error.value); }
      outcome := SwitchTo(rows, file, name, fate.CrashesAfter?);
    }

    /** The manifest names the new generation; then its file is scanned and the old one removed. */
    method SwitchTo(rows: seq<Row>, file: Bytes, name: nat, crash: bool) returns (outcome: Outcome)
      requires Ready() && codec.RoundTrips() && Holds(codec, file, rows) && (rows == [] ==> file == FILE_MAGIC)
      requires name !in disk.generations
      modifies this
      ensures writable == old(writable) && History() == rows && (if Numbered(rows) then Sound() else Misnumbered())
      ensures outcome == if crash then Interrupted else if Numbered(rows) then Done([]) else Failed(SequenceInvalid)
      ensures up <==> !outcome.Interrupted?
      ensures outcome.Done? ==> Ready()
      ensures outcome.Failed? ==> head == old(head) && count == old(count)
    {
      hide SoundDisk, HistoryOf, Attached, ScanPasses, Repaired, GenerationRows, Last, Numbered, Parse, Recoverable,
           HeadWhole,
           Codec.RoundTrips, MisnumberedDisk;
      AttachedIsSound(codec, disk, head, count);
      var g := Generation([], Some(file));
      RewrittenRows(codec, file, rows);
      var was := disk.current;
      disk := Disk(name, disk.generations[name := g]);
      RewrittenDisk(codec, disk, file, rows);
      RewrittenMisnumbered(codec, disk, file, rows);
      if crash {
        up := false;
        return Interrupted;
      }
      var last, rowCount, after, error := ScanFiles(codec, g, false);
      // the object keeps the head and the count of the generation before
      if error.Some? { return Failed(SequenceInvalid); }
      head, count := last, rowCount;
      disk := Disk(name, disk.generations - {was});
      RewrittenDisk(codec, disk, file, rows);
      outcome := Done([]);
    }

    /** `rows`: those with a number above `after` and, when a bound is given, up to it. */
    method Rows(after: int, upto: Option<int>) returns (rows: seq<Row>, error: Option<Error>)
      requires Ready()
      ensures error == None && rows == Between(History(), after, upto)
    {
      AttachedFacts(codec, disk, head, count);
      rows, error := SelectRows(codec, disk.generations[disk.current], after, upto);
    }
  }

  /** All of the frame or none of it. */
  ghost predicate FrameWritten(codec: Codec, before: Disk, after: Disk, contents: seq<Content>, count: nat,
      outcome: Outcome)
  {
    match outcome
    case Done(numbers) =>
      Grew(codec, before, after, contents, count) && numbers == Numbers(count, |contents|)
    case Failed(_) => after == before
    case Raised => false
    case Interrupted =>
      || HistoryOf(codec, after) == HistoryOf(codec, before)
      || Grew(codec, before, after, contents, count)
  }

  lemma NumberNothing(n: nat)
    ensures Number([], n) == []
  {
  }

  lemma FramedSize(disk: Disk, bytes: Bytes)
    requires disk.current in disk.generations
    ensures |HeadFile(Framed(disk, bytes))| == |HeadFile(disk)| + |bytes|
  {
  }

  /** A crash cuts the frame short exactly when it does not land. */
  lemma CutSize(codec: Codec, disk: Disk, contents: seq<Content>, count: nat, fate: AppendFate, cut: nat)
    requires count == |HistoryOf(codec, disk)| && !fate.WriteFails?
    requires cut == Reached(fate, |Frame(codec, Number(contents, count))|)
    ensures cut == |Frame(codec, Number(contents, count))| <==> Lands(codec, disk, contents, fate)
  {
    hide Frame, HistoryOf, Number;
  }

  lemma WithTwice(disk: Disk, g: Generation, head: Option<Bytes>)
    ensures With(With(disk, g), g.(head := head)) == With(disk, g.(head := head))
  {
  }

  lemma SoundHasCurrent(codec: Codec, disk: Disk)
    ensures SoundDisk(codec, disk) ==> disk.current in disk.generations
    ensures MisnumberedDisk(codec, disk) ==>
              disk.current in disk.generations && disk.generations[disk.current].head.Some?
  {
  }

  /** A store whose rows are not numbered does not open. */
  lemma MisnumberedFails(codec: Codec, disk: Disk, repair: bool)
    requires MisnumberedDisk(codec, disk)
    ensures var g := disk.generations[disk.current]; !ScanPasses(codec, g, repair) && With(disk, g) == disk
  {
  }

  lemma AttachedIsSound(codec: Codec, disk: Disk, head: Option<Row>, count: nat)
    requires Attached(codec, disk, head, count)
    ensures SoundDisk(codec, disk) && disk.current in disk.generations
            && disk.generations[disk.current].head == Some(HeadFile(disk))
  {
  }

  /** A new generation of one file. */
  lemma RewrittenRows(codec: Codec, file: Bytes, rows: seq<Row>)
    requires Holds(codec, file, rows) && (rows == [] ==> file == FILE_MAGIC)
    ensures var g := Generation([], Some(file));
            && GenerationRows(codec, g) == rows && HeadWhole(codec, g.head) && Repaired(codec, g) == g
            && (Numbered(rows) <==> ScanPasses(codec, g, false)) && (Numbered(rows) <==> Recoverable(codec, g))
  {
    assert [] + rows == rows && file[..|file|] == file;
  }

  // ----- any run of operations -----

  /** A call of the owner, or the process coming back; `fate` is the environment's choice. */
  datatype Event =
    | Appends(contents: seq<Content>, fate: AppendFate)
    | Rotates(rotation: RotateFate)
    | Rewrites(rows: seq<Row>, name: nat, rewrite: RewriteFate)
    | Opens(writable: bool)

  /** What was observed: appends and rewrites with their outcome, `Quiet` for the rest. */
  datatype Seen = Appended(contents: seq<Content>, outcome: Outcome) | Rewrote(rows: seq<Row>, outcome: Outcome) | Quiet

  ghost predicate StepOf(before: seq<Row>, seen: Seen, after: seq<Row>) {
    match seen
    case Appended(contents, outcome) =>
      var all := before + Number(contents, |before|);
      (match outcome
       case Done(_) => after == all
       case Raised => after == all
       case Failed(_) => after == before
       case Interrupted => after == before || after == all)
    case Rewrote(rows, outcome) =>
      Numbered(rows) && (match outcome
                         case Done(_) => after == rows
                         case Interrupted => after == before || after == rows
                         case _ => after == before)
    case Quiet => after == before
  }

  ghost predicate IsRun(histories: seq<seq<Row>>, seen: seq<Seen>) {
    && |histories| == |seen| + 1 && Numbered(histories[0])
    && forall i :: 0 <= i < |seen| ==> StepOf(histories[i], seen[i], histories[i + 1])
  }

  lemma NumberedMore(rows: seq<Row>, contents: seq<Content>)
    requires Numbered(rows)
    ensures Numbered(rows + Number(contents, |rows|))
  {
  }

  lemma {:induction false} RunIsNumbered(histories: seq<seq<Row>>, seen: seq<Seen>, i: nat)
    requires IsRun(histories, seen) && i < |histories|
    ensures Numbered(histories[i])
  {
    if i > 0 {
      RunIsNumbered(histories, seen, i - 1);
      assert StepOf(histories[i - 1], seen[i - 1], histories[i]);
      if seen[i - 1].Appended? { NumberedMore(histories[i - 1], seen[i - 1].contents); }
    }
  }

  lemma {:induction false} RunOnlyAppends(histories: seq<seq<Row>>, seen: seq<Seen>, i: nat, j: nat)
    requires IsRun(histories, seen) && i <= j < |histories| && forall k :: i <= k < j ==> !seen[k].Rewrote?
    ensures histories[i] <= histories[j]
    decreases j - i
  {
    if i < j {
      RunOnlyAppends(histories, seen, i, j - 1);
      assert StepOf(histories[j - 1], seen[j - 1], histories[j]);
    }
  }

  lemma CommittedStays(histories: seq<seq<Row>>, seen: seq<Seen>, i: nat, j: nat)
    requires IsRun(histories, seen) && i < j < |histories| && forall k :: i < k < j ==> !seen[k].Rewrote?
    requires seen[i].Appended? && (seen[i].outcome.Done? || seen[i].outcome.Raised?)
    ensures var rows := Number(seen[i].contents, |histories[i]|);
            |histories[i]| + |rows| <= |histories[j]| && histories[j][|histories[i]|..|histories[i]| + |rows|] == rows
  {
    assert StepOf(histories[i], seen[i], histories[i + 1]);
    RunOnlyAppends(histories, seen, i + 1, j);
    var rows := Number(seen[i].contents, |histories[i]|);
    assert histories[j][..|histories[i + 1]|] == histories[i] + rows;
  }

  lemma RunStep(histories: seq<seq<Row>>, seen: seq<Seen>, step: Seen, after: seq<Row>)
    requires IsRun(histories, seen) && StepOf(histories[|seen|], step, after)
    ensures IsRun(histories + [after], seen + [step])
  {
    hide StepOf, Numbered;
    var more, all := histories + [after], seen + [step];
    forall i | 0 <= i < |all| ensures StepOf(more[i], all[i], more[i + 1]) {
      if i < |seen| { assert more[i] == histories[i] && more[i + 1] == histories[i + 1] && all[i] == seen[i]; }
    }
  }

  /** An append that committed its batch, with no rewrite since. */
  ghost predicate Committed(seen: seq<Seen>, i: nat)
    requires i < |seen|
  {
    && seen[i].Appended? && (seen[i].outcome.Done? || seen[i].outcome.Raised?)
    && forall k :: i < k < |seen| ==> !seen[k].Rewrote?
  }

  /** Its rows are in the history, whole and in their place. */
  ghost predicate Kept(histories: seq<seq<Row>>, seen: seq<Seen>, i: nat, history: seq<Row>)
    requires |histories| == |seen| + 1 && i < |seen| && seen[i].Appended?
  {
    var rows := Number(seen[i].contents, |histories[i]|);
    |histories[i]| + |rows| <= |history| && history[|histories[i]|..|histories[i]| + |rows|] == rows
  }

  /** The journal between two events. */
  datatype State = State(disk: Disk, writable: bool, up: bool)

  /** The observation of the event, in the state it met, is the one it must make. */
  ghost predicate Answers(codec: Codec, before: State, event: Event, seen: Seen, after: State) {
    match event
    case Opens(writable) =>
      && seen == Quiet && before.disk.current in before.disk.generations
      && (after.up <==> writable || HeadWhole(codec, before.disk.generations[before.disk.current].head))
      && (after.up ==> after.writable == writable)
    case Appends(contents, fate) =>
      if before.up then
        && seen == Appended(contents, AppendAnswer(codec, before.disk, before.writable, contents, fate))
        && after.writable == before.writable
        && (seen.outcome.Done? || seen.outcome.Failed? ==> after.up) && (seen.outcome.Interrupted? ==> !after.up)
      else seen == Quiet && after == before
    case Rotates(_) => seen == Quiet && after.writable == before.writable && (before.up || after == before)
    case Rewrites(rows, name, fate) =>
      if before.up then
        && seen == Rewrote(rows, RewriteAnswer(codec, before.disk, before.writable, rows, name, fate))
        && after.writable == before.writable && (after.up <==> !seen.outcome.Interrupted?)
      else seen == Quiet && after == before
  }

  ghost function StateOf(journal: Journal): State
    reads journal
  {
    State(journal.disk, journal.writable, journal.up)
  }

  /**
   Any calls, failures, crashes at any byte and reopenings, in any order: each is answered as it must be, the history
   stays numbered 1..n, and every batch whose append committed is found whole and in its place unless the journal was
   rewritten since. While the process is gone only an opening does anything.
   */
  method Play(journal: Journal, events: seq<Event>)
    returns (seen: seq<Seen>, ghost states: seq<State>, ghost histories: seq<seq<Row>>)
    requires journal.Ready() && forall k :: 0 <= k < |events| && events[k].Rewrites? ==> Numbered(events[k].rows)
    modifies journal
    ensures journal.Sound() && (journal.up ==> journal.Ready()) && Numbered(journal.History())
    ensures |seen| == |events| && |histories| == |states| == |events| + 1
    ensures states[0] == old(StateOf(journal)) && states[|events|] == StateOf(journal)
    ensures forall k :: 0 <= k < |states| ==> histories[k] == HistoryOf(journal.codec, states[k].disk)
    ensures forall k :: 0 <= k < |events| ==>
              Answers(journal.codec, states[k], events[k], seen[k], states[k + 1])
              && StepOf(histories[k], seen[k], histories[k + 1])
    ensures forall i, j :: 0 <= i <= j < |histories| && (forall k :: i <= k < j ==> !seen[k].Rewrote?) ==>
              histories[i] <= histories[j]
    ensures forall i :: 0 <= i < |seen| && Committed(seen, i) ==> Kept(histories, seen, i, journal.History())
  {
    hide SoundDisk, HistoryOf, Attached, Numbered, IsRun, MisnumberedDisk, Number, Answers, StepOf;
    ReadyIsNumbered(journal);
    histories, states, seen := [journal.History()], [StateOf(journal)], [];
    StartOfRun(journal.History());
    for e := 0 to |events|
      invariant journal.Sound() && (journal.up ==> journal.Ready())
      invariant |seen| == e && |histories| == |states| == e + 1 && IsRun(histories, seen)
      invariant states[0] == old(StateOf(journal)) && states[e] == StateOf(journal)
      invariant forall k :: 0 <= k <= e ==> histories[k] == HistoryOf(journal.codec, states[k].disk)
      invariant forall k :: 0 <= k < e ==>
                  Answers(journal.codec, states[k], events[k], seen[k], states[k + 1])
                  && StepOf(histories[k], seen[k], histories[k + 1])
    {
      var step := PlayOne(journal, events[e]);
      RunStep(histories, seen, step, journal.History());
      histories, states, seen := histories + [journal.History()], states + [StateOf(journal)], seen + [step];
    }
    RunIsNumbered(histories, seen, |events|);
    forall i, j | 0 <= i <= j < |histories| && forall k :: i <= k < j ==> !seen[k].Rewrote?
      ensures histories[i] <= histories[j]
    {
      RunOnlyAppends(histories, seen, i, j);
    }
    forall i | 0 <= i < |seen| && Committed(seen, i) ensures Kept(histories, seen, i, journal.History())
    {
      CommittedStays(histories, seen, i, |events|);
    }
  }

  lemma StartOfRun(history: seq<Row>)
    requires Numbered(history)
    ensures IsRun([history], [])
  {
  }

  lemma ReadyIsNumbered(journal: Journal)
    requires journal.Ready()
    ensures Numbered(journal.History()) && journal.Sound()
  {
    AttachedFacts(journal.codec, journal.disk, journal.head, journal.count);
    AttachedIsSound(journal.codec, journal.disk, journal.head, journal.count);
  }

  method PlayOne(journal: Journal, event: Event) returns (seen: Seen)
    requires journal.Sound() && (journal.up ==> journal.Ready()) && (event.Rewrites? ==> Numbered(event.rows))
    modifies journal
    ensures journal.Sound() && (journal.up ==> journal.Ready())
    ensures StepOf(old(journal.History()), seen, journal.History())
    ensures Answers(journal.codec, old(StateOf(journal)), event, seen, StateOf(journal))
  {
    hide SoundDisk, HistoryOf, Attached, Numbered, MisnumberedDisk, Number, AppendAnswer, RewriteAnswer, HeadWhole,
         Lands;
    SoundHasCurrent(journal.codec, journal.disk);
    seen := Quiet;
    if event.Opens? {
      var error := journal.Open(event.writable);
    } else if journal.up {
      ReadyIsNumbered(journal);
      match event
      case Appends(contents, fate) =>
        var outcome := journal.Append(contents, fate);
        seen := Appended(contents, outcome);
      case Rotates(fate) => var rotated := journal.Rotate(fate);
      case Rewrites(rows, name, fate) =>
        var outcome := journal.Rewrite(rows, name, fate);
        seen := Rewrote(rows, outcome);
    }
  }
}
