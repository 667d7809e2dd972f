/**
 The check of `provenance.py` that a recorded origin still holds its text: the recorded bytes first, then the index
 of the file's parts, which is kept under a key that does not cover the middle of a long file.
 */
module Origins {
  import opened Encoding
  import opened Provenance
  import opened Wrappers

  // ----- bytes and characters -----

  /** UTF-8 in both directions; decoding replaces what is not UTF-8. */
  datatype Codec = Codec(encode: char -> seq<Byte>, decode: seq<Byte> -> string)

  function Encoded(codec: Codec, s: string): seq<Byte> {
    if s == "" then [] else codec.encode(s[0]) + Encoded(codec, s[1..])
  }

  /** Characters take their bytes (section 3 of RFC 3629), and text survives the round trip. */
  ghost predicate IsUtf8(codec: Codec) {
    (forall c :: |codec.encode(c)| == Size(c)) && forall s :: codec.decode(Encoded(codec, s)) == s
  }

  lemma {:induction false} EncodedSize(codec: Codec, s: string)
    requires IsUtf8(codec)
    ensures |Encoded(codec, s)| == Bytes(s)
  {
    if s != "" { EncodedSize(codec, s[1..]); }
  }

  lemma {:induction false} EncodedConcat(codec: Codec, a: string, b: string)
    ensures Encoded(codec, a + b) == Encoded(codec, a) + Encoded(codec, b)
  {
    if a == "" {
      assert a + b == b;
    } else {
      EncodedConcat(codec, a[1..], b);
      assert (a + b)[1..] == a[1..] + b;
    }
  }

  lemma Middle(x: seq<Byte>, y: seq<Byte>, z: seq<Byte>)
    ensures (x + y + z)[|x|..|x| + |y|] == y
  {
  }

  /** Bytes cut at characters decode to those characters. */
  lemma DecodeCut(codec: Codec, raw: string, start: nat, end: nat)
    requires IsUtf8(codec) && start <= end <= Bytes(raw) && Aligned(raw, start) && Aligned(raw, end)
    ensures |Encoded(codec, raw)| == Bytes(raw)
    ensures codec.decode(Encoded(codec, raw)[start..end]) == Cut(raw, start, end)
  {
    hide Bytes, Size, CharAt, Encoded;
    EncodedSize(codec, raw);
    var i, j := CharAt(raw, start), CharAt(raw, end);
    if i <= j {
      CutBytes(codec, raw, i, j);
    } else {
      assert raw[..i] == raw[..j] + raw[j..i];
      BytesConcat(raw[..j], raw[j..i]);
      assert false;
    }
  }

  lemma CutBytes(codec: Codec, raw: string, i: nat, j: nat)
    requires IsUtf8(codec) && i <= j <= |raw|
    ensures Bytes(raw[..i]) <= Bytes(raw[..j]) <= |Encoded(codec, raw)|
    ensures codec.decode(Encoded(codec, raw)[Bytes(raw[..i])..Bytes(raw[..j])]) == raw[i..j]
  {
    hide Bytes, Size, Encoded;
    var a, b, c := raw[..i], raw[i..j], raw[j..];
    assert raw == a + b + c && raw[..j] == a + b;
    EncodedConcat(codec, a + b, c);
    EncodedConcat(codec, a, b);
    BytesConcat(a, b);
    EncodedSize(codec, a);
    EncodedSize(codec, b);
    Middle(Encoded(codec, a), Encoded(codec, b), Encoded(codec, c));
    assert codec.decode(Encoded(codec, b)) == b;
  }

  // ----- the question and its verdict -----

  datatype Kind = Doc | DocSection | LogEntry

  /** The recorded span and, if they were recorded, its lines. */
  datatype Origin = Origin(start: int, end: int, lines: Option<(nat, nat)>)

  datatype Verdict = IntactAt(first: nat, last: nat) | MovedTo(first: nat, last: nat)
      | ChangedAt(first: nat, last: nat) | Missing

  /** What is asked about a record; no file means it cannot be read. */
  datatype Query = Query(path: string, file: Option<seq<Byte>>, kind: Kind, origin: Option<Origin>, want: string,
      head: string, section: string, index: Option<int>)

  /** What the verifier uses: the digest of a text, the title of a section's text, digits, white space, and UTF-8. */
  datatype Reader = Reader(digest: string -> string, title: string -> string, digit: char -> bool, space: char -> bool,
      codec: Codec)

  ghost predicate IsReader(r: Reader) { IsSpace(r.space) && !r.digit(CR) && !r.digit(LF) && IsUtf8(r.codec) }

  /** Documents split into sections, everything else into log entries. */
  function PatternOf(sections: bool, r: Reader): Pattern {
    if sections then SectionSplit(r.digit) else LogSplit(r.digit)
  }

  lemma PatternIsOneLine(sections: bool, r: Reader)
    requires IsReader(r)
    ensures OneLine(PatternOf(sections, r)) && IsSpace(r.space)
  {
    PatternsAreOneLine(r.digit);
  }

  /** The recorded span lies in the file and its bytes still hold the record. */
  predicate SpanHolds(data: seq<Byte>, origin: Option<Origin>, want: string, r: Reader) {
    && origin.Some? && 0 <= origin.value.start <= origin.value.end <= |data|
    && r.digest(Strip(Normalize(r.codec.decode(data[origin.value.start..origin.value.end])), r.space)) == want
  }

  /** The first part that satisfies a test, by position. */
  ghost predicate FirstWith(parts: seq<Part>, test: Part -> bool, k: nat) {
    k < |parts| && test(parts[k]) && forall j :: 0 <= j < k ==> !test(parts[j])
  }

  method FindPart(parts: seq<Part>, test: Part -> bool) returns (k: Option<nat>)
    ensures k.Some? ==> FirstWith(parts, test, k.value)
    ensures k == None ==> forall j :: 0 <= j < |parts| ==> !test(parts[j])
  {
    k := None;
    for i := 0 to |parts|
      invariant forall j :: 0 <= j < i ==> !test(parts[j])
    {
      if test(parts[i]) { return Some(i); }
    }
  }

  function Prefix(s: string, n: nat): string { if |s| <= n then s else s[..n] }

  predicate Begins(text: string, key: string) { |key| <= |text| && text[..|key|] == key }

  function Bears(r: Reader, want: string): Part -> bool { (part: Part) => r.digest(part.text) == want }

  function Alike(r: Reader, q: Query): Part -> bool {
    if q.kind == DocSection then
      var key := Strip(q.section, r.space);
      (part: Part) => key != "" && r.title(part.text) == key
    else
      var key := Prefix(Strip(q.head, r.space), 80);
      (part: Part) => key != "" && Begins(Prefix(part.text, 200), key)
  }

  /** The verdict once the recorded span no longer holds the record. */
  ghost predicate Judged(parts: seq<Part>, r: Reader, q: Query, v: Verdict) {
    var same := Bears(r, q.want);
    if exists k :: 0 <= k < |parts| && same(parts[k]) then
      exists k: nat :: FirstWith(parts, same, k)
        && v == if q.origin.Some? then MovedTo(parts[k].first, parts[k].last)
           else IntactAt(parts[k].first, parts[k].last)
    else Resembled(parts, r, q, v)
  }

  /** Changed when a part bears the section's title, at its index if one is known, or begins like the log entry. */
  ghost predicate Resembled(parts: seq<Part>, r: Reader, q: Query, v: Verdict) {
    var alike := Alike(r, q);
    match (q.kind, q.index)
    case (DocSection, Some(i)) =>
      v == if 0 <= i < |parts| && alike(parts[i]) then ChangedAt(parts[i].first, parts[i].last) else Missing
    case _ =>
      if exists k :: 0 <= k < |parts| && alike(parts[k]) then
        exists k: nat :: FirstWith(parts, alike, k) && v == ChangedAt(parts[k].first, parts[k].last)
      else v == Missing
  }

  method Judge(parts: seq<Part>, r: Reader, q: Query) returns (v: Verdict)
    ensures Judged(parts, r, q, v)
  {
    hide Alike;
    var hit := FindPart(parts, Bears(r, q.want));
    if hit.Some? {
      var part := parts[hit.value];
      return if q.origin.Some? then MovedTo(part.first, part.last) else IntactAt(part.first, part.last);
    }
    var alike := Alike(r, q);
    if q.kind == DocSection && q.index.Some? {
      var i := q.index.value;
      return if 0 <= i < |parts| && alike(parts[i]) then ChangedAt(parts[i].first, parts[i].last) else Missing;
    }
    var found := FindPart(parts, alike);
    v := if found.Some? then ChangedAt(parts[found.value].first, parts[found.value].last) else Missing;
  }

  /** What the file as it is now says. */
  ghost predicate Right(r: Reader, q: Query, v: Verdict) {
    match q.file
    case None => v == Missing
    case Some(data) =>
      if q.kind == Doc then
        var norm := Normalize(r.codec.decode(data));
        v == if r.digest(norm) == q.want then IntactAt(1, Count(norm) + 1) else ChangedAt(1, Count(norm) + 1)
      else if SpanHolds(data, q.origin, q.want, r) then v == RecordedLines(q.origin)
      else
        exists parts :: Faithful(r.codec.decode(data), PatternOf(q.kind == DocSection, r), r.space, parts)
          && Judged(parts, r, q, v)
  }

  function RecordedLines(origin: Option<Origin>): Verdict {
    if origin.Some? && origin.value.lines.Some? then IntactAt(origin.value.lines.value.0, origin.value.lines.value.1)
       else IntactAt(1, 1)
  }

  /** A verdict on parts is one on any parts alike in text and lines. */
  lemma AlikeJudges(a: seq<Part>, b: seq<Part>, r: Reader, q: Query, v: Verdict)
    requires |a| == |b| && Judged(a, r, q, v)
    requires forall k :: 0 <= k < |a| ==> a[k].text == b[k].text && a[k].first == b[k].first && a[k].last == b[k].last
    ensures Judged(b, r, q, v)
  {
    hide Bears, Alike;
    TestsAlike(a, b, r, q);
    FirstAlike(a, b, Bears(r, q.want));
    FirstAlike(a, b, Alike(r, q));
    FirstsAgree(a, b, Bears(r, q.want));
    FirstsAgree(a, b, Alike(r, q));
  }

  lemma FirstsAgree(a: seq<Part>, b: seq<Part>, test: Part -> bool)
    requires |a| == |b| && forall k :: 0 <= k < |a| ==> test(a[k]) == test(b[k])
    ensures forall k: nat :: FirstWith(a, test, k) <==> FirstWith(b, test, k)
  {
  }

  /** So parts alike in text and lines are judged alike. */
  lemma JudgedAlike(a: seq<Part>, b: seq<Part>, r: Reader, q: Query, v: Verdict, w: Verdict)
    requires |a| == |b|
    requires forall k :: 0 <= k < |a| ==> a[k].text == b[k].text && a[k].first == b[k].first && a[k].last == b[k].last
    requires Judged(a, r, q, v) && Judged(b, r, q, w)
    ensures v == w
  {
    hide Judged, Bears, Alike;
    AlikeJudges(a, b, r, q, v);
    JudgedOnce(b, r, q, v, w);
  }

  lemma JudgedOnce(parts: seq<Part>, r: Reader, q: Query, v: Verdict, w: Verdict)
    requires Judged(parts, r, q, v) && Judged(parts, r, q, w)
    ensures v == w
  {
    hide Bears, Alike, FirstWith, Resembled;
    FirstOnce(parts, Bears(r, q.want));
    ResembledOnce(parts, r, q, v, w);
  }

  lemma ResembledOnce(parts: seq<Part>, r: Reader, q: Query, v: Verdict, w: Verdict)
    ensures Resembled(parts, r, q, v) && Resembled(parts, r, q, w) ==> v == w
  {
    hide Alike, FirstWith;
    FirstOnce(parts, Alike(r, q));
  }

  lemma FirstOnce(parts: seq<Part>, test: Part -> bool)
    ensures forall j: nat, k: nat :: FirstWith(parts, test, j) && FirstWith(parts, test, k) ==> j == k
  {
  }

  lemma TestsAlike(a: seq<Part>, b: seq<Part>, r: Reader, q: Query)
    requires |a| == |b| && forall k :: 0 <= k < |a| ==> a[k].text == b[k].text
    ensures forall k :: 0 <= k < |a| ==>
              Bears(r, q.want)(a[k]) == Bears(r, q.want)(b[k]) && Alike(r, q)(a[k]) == Alike(r, q)(b[k])
  {
  }

  lemma FirstAlike(a: seq<Part>, b: seq<Part>, test: Part -> bool)
    requires |a| == |b| && forall k :: 0 <= k < |a| ==> test(a[k]) == test(b[k])
    ensures (exists k :: 0 <= k < |a| && test(a[k])) <==> exists k :: 0 <= k < |b| && test(b[k])
    ensures forall j, k :: FirstWith(a, test, j) && FirstWith(b, test, k) ==> j == k
  {
    if k :| 0 <= k < |a| && test(a[k]) { assert test(b[k]); }
    if k :| 0 <= k < |b| && test(b[k]) { assert test(a[k]); }
  }

  /** A file says one thing only. */
  lemma RightIsUnique(r: Reader, q: Query, v: Verdict, w: Verdict)
    requires Right(r, q, v) && Right(r, q, w)
    ensures v == w
  {
    hide Judged, Faithful, Normalize, Strip, Count;
    if q.file.Some? && q.kind != Doc && !SpanHolds(q.file.value, q.origin, q.want, r) {
      var raw, p := r.codec.decode(q.file.value), PatternOf(q.kind == DocSection, r);
      var a :| Faithful(raw, p, r.space, a) && Judged(a, r, q, v);
      var b :| Faithful(raw, p, r.space, b) && Judged(b, r, q, w);
      FaithfulIsUnique(raw, p, r.space, a, b);
      JudgedAlike(a, b, r, q, v, w);
    }
  }

  /** A record bound to any part of a UTF-8 file is intact as long as the file is unchanged. */
  lemma UnchangedIsIntact(r: Reader, raw: string, p: Pattern, out: seq<Part>, k: nat)
    requires IsReader(r) && Faithful(raw, p, r.space, out) && k < |out|
    ensures var part := out[k];
            SpanHolds(Encoded(r.codec, raw), Some(Origin(part.start, part.end, Some((part.first, part.last)))),
              r.digest(part.text), r)
  {
    hide Normalize, Strip, Split, Numbered, Separated, Aligned, Cut, Bytes, Encoded, IsUtf8;
    assert Intact(raw, out[k], r.space);
    DecodeCut(r.codec, raw, out[k].start, out[k].end);
  }

  // ----- the kept index -----

  const END := 4096
  const CACHE_SIZE := 16

  function Head(data: seq<Byte>): seq<Byte> { if |data| <= END then data else data[..END] }

  function Tail(data: seq<Byte>): seq<Byte> { if |data| <= END then data else data[|data| - END..] }

  datatype Key = Key(path: string, sections: bool, length: nat, head: int, tail: int)

  function KeyOf(path: string, sections: bool, data: seq<Byte>, hash: seq<Byte> -> int): Key {
    Key(path, sections, |data|, hash(Head(data)), hash(Tail(data)))
  }

  /**
   The keys of two versions of a file agree exactly when the versions are as long and differ at most in the bytes
   that are neither among the first nor among the last 4096; up to twice that length they are the same.
   */
  lemma KeyTells(path: string, sections: bool, a: seq<Byte>, b: seq<Byte>, hash: seq<Byte> -> int)
    requires forall x, y :: hash(x) == hash(y) ==> x == y
    ensures KeyOf(path, sections, a, hash) == KeyOf(path, sections, b, hash)
       <==> |a| == |b| && forall i :: 0 <= i < |a| && (i < END || i >= |a| - END) ==> a[i] == b[i]
    ensures |a| <= 2 * END ==> (KeyOf(path, sections, a, hash) == KeyOf(path, sections, b, hash) <==> a == b)
  {
    if KeyOf(path, sections, a, hash) == KeyOf(path, sections, b, hash) {
      assert Head(a) == Head(b) && Tail(a) == Tail(b);
      forall i | 0 <= i < |a| && (i < END || i >= |a| - END) ensures a[i] == b[i] {
        if i < END { assert Head(a)[i] == a[i] && Head(b)[i] == b[i]; }
        else { assert Tail(a)[i - (|a| - END)] == a[i] && Tail(b)[i - (|a| - END)] == b[i]; }
      }
    }
    if |a| == |b| && forall i :: 0 <= i < |a| && (i < END || i >= |a| - END) ==> a[i] == b[i] {
      assert Head(a) == Head(b) && Tail(a) == Tail(b);
    }
  }

  datatype Entry = Entry(key: Key, parts: seq<Part>)

  function Find(kept: seq<Entry>, key: Key): (at: Option<nat>)
    ensures at.Some? ==> at.value < |kept| && kept[at.value].key == key
    ensures at == None ==> forall i :: 0 <= i < |kept| ==> kept[i].key != key
  {
    if kept == [] then None
    else
      var last := |kept| - 1;
      if kept[last].key == key then Some(last) else Find(kept[..last], key)
  }

  /** The entry is the index of this version of its file. */
  ghost predicate Built(e: Entry, data: seq<Byte>, r: Reader, hash: seq<Byte> -> int) {
    && e.key == KeyOf(e.key.path, e.key.sections, data, hash)
    && Faithful(r.codec.decode(data), PatternOf(e.key.sections, r), r.space, e.parts)
  }

  /** The entry is for the file of the question, in the version the question met. */
  ghost predicate Indexes(e: Entry, version: seq<Byte>, q: Query) {
    e.key.path == q.path && e.key.sections == (q.kind == DocSection) && q.file == Some(version)
  }

  /** Every kept index was kept before, or is of the version the question met. */
  ghost predicate KeptFrom(was: seq<Entry>, wasOf: seq<seq<Byte>>, now: seq<Entry>, nowOf: seq<seq<Byte>>, q: Query) {
    && |was| == |wasOf| && |now| == |nowOf|
    && forall i :: 0 <= i < |now| ==> Indexes(now[i], nowOf[i], q) || AmongKept(was, wasOf, now[i], nowOf[i])
  }

  ghost predicate AmongKept(was: seq<Entry>, wasOf: seq<seq<Byte>>, e: Entry, version: seq<Byte>)
    requires |was| == |wasOf|
  {
    exists j :: 0 <= j < |was| && was[j] == e && wasOf[j] == version
  }

  class Verifier {
    const reader: Reader
    const hash: seq<Byte> -> int
    /** The kept indexes, oldest first. */
    var kept: seq<Entry>
    /** The version of its file that each of them was built from. */
    ghost var versions: seq<seq<Byte>>

    ghost predicate Valid() reads this {
      && IsReader(reader) && |versions| == |kept| <= CACHE_SIZE
      && forall i :: 0 <= i < |kept| ==> Built(kept[i], versions[i], reader, hash)
    }

    constructor (reader: Reader, hash: seq<Byte> -> int)
      requires IsReader(reader)
      ensures Valid() && kept == [] && this.reader == reader && this.hash == hash
    {
      this.reader, this.hash := reader, hash;
      kept, versions := [], [];
    }

    /** The version the kept index for this file was built from, if there is one. */
    ghost function Version(path: string, sections: bool, data: seq<Byte>): Option<seq<Byte>>
      requires |versions| == |kept|
      reads this
    {
      match Find(kept, KeyOf(path, sections, data, hash)) case Some(i) => Some(versions[i]) case None => None
    }

    /** `_parts_index`: the kept index under the file's key, or a new one, for which the oldest makes room. */
    method PartsIndex(path: string, data: seq<Byte>, sections: bool) returns (parts: seq<Part>)
      requires Valid()
      modifies this
      ensures Valid()
      ensures Faithful(reader.codec.decode(match old(Version(path, sections, data)) case Some(was) => was
                  case None => data),
                       PatternOf(sections, reader), reader.space, parts)
      ensures if old(Version(path, sections, data)).Some? then versions == old(versions) && kept == old(kept)
              else
                var from := if |old(kept)| >= CACHE_SIZE then 1 else 0;
                && versions == old(versions)[from..] + [data]
                && kept == old(kept)[from..] + [Entry(KeyOf(path, sections, data, hash), parts)]
    {
      hide Faithful, IsUtf8, OneLine, PatternOf;
      PatternIsOneLine(sections, reader);
      var key := KeyOf(path, sections, data, hash);
      match Find(kept, key)
      case Some(i) =>
        parts := kept[i].parts;
        assert Built(kept[i], versions[i], reader, hash);
      case None =>
        parts := PartsWithSpans(reader.codec.decode(data), PatternOf(sections, reader), reader.space);
        if |kept| >= CACHE_SIZE { kept, versions := kept[1..], versions[1..]; }
        kept, versions := kept + [Entry(key, parts)], versions + [data];
    }

    /**
     `verify`: the recorded span, then the same digest elsewhere, then a part that begins alike. The answer is
     what the version says that the index was built from; so it is right when that is the version there is now.
     */
    method Verify(q: Query) returns (v: Verdict)
      requires Valid()
      modifies this
      ensures Valid()
      ensures var sections := q.kind == DocSection;
              match q.file
              case None => Right(reader, q, v)
              case Some(data) =>
                if q.kind == Doc || SpanHolds(data, q.origin, q.want, reader) then Right(reader, q, v)
                else
                  match old(Version(q.path, sections, data))
                  case None => Right(reader, q, v)
                  case Some(was) =>
                    && (was == data ==> Right(reader, q, v))
                    && exists parts ::
                         Faithful(reader.codec.decode(was), PatternOf(sections, reader), reader.space, parts)
                           && Judged(parts, reader, q, v)
      ensures KeptFrom(old(kept), old(versions), kept, versions, q)
      ensures q.file.Some? && q.kind != Doc && !SpanHolds(q.file.value, q.origin, q.want, reader) ==>
                var was := old(Version(q.path, q.kind == DocSection, q.file.value));
                Version(q.path, q.kind == DocSection, q.file.value) == if was.Some? then was else q.file
    {
      hide Faithful, IsUtf8, Judged, Normalize, Strip, Count, SpanHolds;
      if q.file == None { return Missing; }
      var data := q.file.value;
      if q.kind == Doc {
        var norm := Normalize(reader.codec.decode(data));
        return if reader.digest(norm) == q.want then IntactAt(1, Count(norm) + 1) else ChangedAt(1, Count(norm) + 1);
      }
      if SpanHolds(data, q.origin, q.want, reader) { return RecordedLines(q.origin); }
      var parts := PartsIndex(q.path, data, q.kind == DocSection);
      v := Judge(parts, reader, q);
    }
  }

  // ----- any number of questions -----

  /** No two versions that were asked about share a key. */
  ghost predicate ToldApart(qs: seq<Query>, hash: seq<Byte> -> int) {
    forall i, j :: 0 <= j < i < |qs| && SharesKey(qs[j], qs[i], hash) ==> qs[j].file == qs[i].file
  }

  ghost predicate SharesKey(a: Query, b: Query, hash: seq<Byte> -> int) {
    a.file.Some? && b.file.Some? && QueryKey(a, a.file.value, hash) == QueryKey(b, b.file.value, hash)
  }

  function QueryKey(q: Query, data: seq<Byte>, hash: seq<Byte> -> int): Key {
    KeyOf(q.path, q.kind == DocSection, data, hash)
  }

  /** Versions of up to 8192 bytes never share a key. */
  lemma ShortIsToldApart(qs: seq<Query>, hash: seq<Byte> -> int)
    requires forall x, y :: hash(x) == hash(y) ==> x == y
    requires forall i :: 0 <= i < |qs| && qs[i].file.Some? ==> |qs[i].file.value| <= 2 * END
    ensures ToldApart(qs, hash)
  {
    hide KeyOf;
    forall i, j | 0 <= j < i < |qs| && SharesKey(qs[j], qs[i], hash) ensures qs[j].file == qs[i].file {
      SameKeyPath(qs[j].path, qs[j].kind == DocSection, qs[j].file.value, qs[i].path, qs[i].kind == DocSection,
        qs[i].file.value, hash);
      KeyTells(qs[j].path, qs[j].kind == DocSection, qs[j].file.value, qs[i].file.value, hash);
    }
  }

  lemma SameKeyPath(path: string, sections: bool, a: seq<Byte>, other: string, others: bool, b: seq<Byte>,
      hash: seq<Byte> -> int)
    requires KeyOf(path, sections, a, hash) == KeyOf(other, others, b, hash)
    ensures path == other && sections == others
  {
  }

  /** Every kept index is of a version that was asked about. */
  ghost predicate FromQueries(kept: seq<Entry>, versions: seq<seq<Byte>>, qs: seq<Query>) {
    |kept| == |versions| && forall i :: 0 <= i < |kept| ==> Asked(kept[i], versions[i], qs)
  }

  ghost predicate Asked(e: Entry, version: seq<Byte>, qs: seq<Query>) {
    exists j :: 0 <= j < |qs| && Indexes(e, version, qs[j])
  }

  /**
   Whatever is asked in whatever order, and however the files change in between, every answer is what the file then
   says.
   */
  method VerifyAll(verifier: Verifier, qs: seq<Query>) returns (vs: seq<Verdict>)
    requires verifier.Valid() && verifier.kept == [] && ToldApart(qs, verifier.hash)
    modifies verifier
    ensures |vs| == |qs| && forall i :: 0 <= i < |qs| ==> Right(verifier.reader, qs[i], vs[i])
  {
    hide Right, Built, IsReader, SpanHolds, Faithful, Judged, ToldApart;
    vs := [];
    for n := 0 to |qs|
      invariant verifier.Valid() && FromQueries(verifier.kept, verifier.versions, qs[..n])
      invariant |vs| == n && forall i :: 0 <= i < n ==> Right(verifier.reader, qs[i], vs[i])
    {
      if qs[n].file.Some? { KeptIsCurrent(verifier, qs, n, qs[n].file.value); }
      ghost var kept, versions := verifier.kept, verifier.versions;
      var v := verifier.Verify(qs[n]);
      StillFrom(kept, versions, verifier.kept, verifier.versions, qs, n);
      vs := vs + [v];
    }
  }

  lemma StillFrom(was: seq<Entry>, wasOf: seq<seq<Byte>>, now: seq<Entry>, nowOf: seq<seq<Byte>>, qs: seq<Query>,
      n: nat)
    requires n < |qs| && FromQueries(was, wasOf, qs[..n]) && KeptFrom(was, wasOf, now, nowOf, qs[n])
    ensures FromQueries(now, nowOf, qs[..n + 1])
  {
    hide Indexes;
    forall i | 0 <= i < |now| ensures Asked(now[i], nowOf[i], qs[..n + 1]) {
      if AmongKept(was, wasOf, now[i], nowOf[i]) {
        var j :| 0 <= j < |was| && was[j] == now[i] && wasOf[j] == nowOf[i];
        assert Asked(was[j], wasOf[j], qs[..n]);
        var k :| 0 <= k < n && Indexes(was[j], wasOf[j], qs[..n][k]);
        assert qs[..n + 1][k] == qs[..n][k];
      } else {
        assert qs[..n + 1][n] == qs[n];
      }
    }
  }

  lemma KeptIsCurrent(verifier: Verifier, qs: seq<Query>, n: nat, data: seq<Byte>)
    requires verifier.Valid() && n < |qs| && FromQueries(verifier.kept, verifier.versions, qs[..n])
             && ToldApart(qs, verifier.hash)
    requires qs[n].file == Some(data)
    ensures verifier.Version(qs[n].path, qs[n].kind == DocSection, data) in {None, Some(data)}
  {
    hide Faithful, IsReader;
    var key := QueryKey(qs[n], data, verifier.hash);
    match Find(verifier.kept, key)
    case None =>
    case Some(i) =>
      assert Built(verifier.kept[i], verifier.versions[i], verifier.reader, verifier.hash);
      assert Asked(verifier.kept[i], verifier.versions[i], qs[..n]);
      var j :| 0 <= j < n && Indexes(verifier.kept[i], verifier.versions[i], qs[..n][j]);
      assert SharesKey(qs[j], qs[n], verifier.hash);
  }

  // ----- the index of a version that is gone -----

  /**
   When the index is of an earlier version that held the record, the answer is that it moved to its lines there;
   this is right exactly when it is what the file now says of the record, the same lines for the same text.
   */
  lemma MovedIsRight(was: seq<Part>, now: seq<Part>, r: Reader, q: Query, v: Verdict)
    requires q.origin.Some? && Judged(was, r, q, v) && exists k :: 0 <= k < |was| && Bears(r, q.want)(was[k])
    ensures exists k: nat :: FirstWith(was, Bears(r, q.want), k) && v == MovedTo(was[k].first, was[k].last)
    ensures Judged(now, r, q, v) <==>
              exists k: nat :: FirstWith(now, Bears(r, q.want), k) && v == MovedTo(now[k].first, now[k].last)
  {
    hide Bears, Alike;
    ResembledIsNotMoved(now, r, q, v);
  }

  lemma ResembledIsNotMoved(parts: seq<Part>, r: Reader, q: Query, v: Verdict)
    ensures v.MovedTo? ==> !Resembled(parts, r, q, v)
  {
    hide Alike;
  }

  /** The lines of the first part with the text, if there is one. */
  function LinesOf(parts: seq<Part>, text: string): Option<(nat, nat)> {
    if parts == [] then None
    else if parts[0].text == text then Some((parts[0].first, parts[0].last))
    else LinesOf(parts[1..], text)
  }

  lemma {:induction false} LinesOfFirst(parts: seq<Part>, text: string) returns (k: nat)
    ensures LinesOf(parts, text) == None ==> forall j :: 0 <= j < |parts| ==> parts[j].text != text
    ensures LinesOf(parts, text).Some? ==>
              && k < |parts| && parts[k].text == text && (forall j :: 0 <= j < k ==> parts[j].text != text)
              && LinesOf(parts, text).value == (parts[k].first, parts[k].last)
  {
    k := 0;
    if parts != [] && parts[0].text != text {
      var rest := LinesOfFirst(parts[1..], text);
      k := rest + 1;
      assert forall j :: 1 <= j < |parts| ==> parts[j] == parts[1..][j - 1];
    }
  }

  /** The question whether a record of this text is still at its span, when it is not. */
  ghost predicate AsksFor(q: Query, text: string, r: Reader) {
    && (forall x, y :: r.digest(x) == r.digest(y) ==> x == y)
    && q.origin.Some? && q.kind != Doc && q.want == r.digest(text)
    && q.file.Some? && !SpanHolds(q.file.value, q.origin, q.want, r)
  }

  /** Such a record has moved to the lines of the first part with its text, or is not called moved. */
  lemma MovedTells(parts: seq<Part>, r: Reader, q: Query, text: string, v: Verdict)
    requires AsksFor(q, text, r)
    ensures LinesOf(parts, text).Some? ==>
              (Judged(parts, r, q, v) <==> v == MovedTo(LinesOf(parts, text).value.0, LinesOf(parts, text).value.1))
    ensures LinesOf(parts, text) == None && Judged(parts, r, q, v) ==> !v.MovedTo?
  {
    hide Alike, SpanHolds;
    var k := LinesOfFirst(parts, text);
    var same := Bears(r, q.want);
    if LinesOf(parts, text).Some? {
      assert same(parts[k]) && FirstWith(parts, same, k);
      forall j: nat | FirstWith(parts, same, j) ensures j == k {}
    } else {
      ResembledIsNotMoved(parts, r, q, v);
      forall j | 0 <= j < |parts| ensures !same(parts[j]) {}
    }
  }

  /**
   What an index of other parts says of a text that one of the two has is right exactly when the first part with the
   text has the same lines in both.
   */
  lemma StaleIsRightIff(was: seq<Part>, now: seq<Part>, r: Reader, q: Query, text: string, v: Verdict)
    requires AsksFor(q, text, r) && Judged(was, r, q, v)
    requires LinesOf(was, text).Some? || LinesOf(now, text).Some?
    ensures Judged(now, r, q, v) <==> LinesOf(was, text) == LinesOf(now, text)
  {
    hide Judged, AsksFor, LinesOf;
    MovedTells(was, r, q, text, v);
    MovedTells(now, r, q, text, v);
  }

  /**
   Two questions about versions of one file that share a key: the second, about a text of either version, is answered
   right exactly when the first part with that text has the same lines in both. So as soon as two such versions differ
   for some text, there is a question that is answered wrongly.
   */
  method AskTwice(verifier: Verifier, first: Query, second: Query, ghost text: string)
    returns (v: Verdict, ghost was: seq<Part>, ghost now: seq<Part>)
    requires verifier.Valid() && verifier.kept == [] && SharesKey(first, second, verifier.hash)
    requires first.kind != Doc && !SpanHolds(first.file.value, first.origin, first.want, verifier.reader)
    requires AsksFor(second, text, verifier.reader)
    modifies verifier
    ensures var r, sections := verifier.reader, second.kind == DocSection;
            && Faithful(r.codec.decode(first.file.value), PatternOf(sections, r), r.space, was)
            && Faithful(r.codec.decode(second.file.value), PatternOf(sections, r), r.space, now)
    ensures LinesOf(was, text).Some? || LinesOf(now, text).Some? ==>
              (Right(verifier.reader, second, v) <==> LinesOf(was, text) == LinesOf(now, text))
  {
    hide Faithful, Judged, Normalize, Strip, Count, LinesOf, SpanHolds, Built, IsReader, PatternOf;
    var r := verifier.reader;
    var sections := second.kind == DocSection;
    SameKeyPath(first.path, first.kind == DocSection, first.file.value, second.path, sections, second.file.value,
      verifier.hash);
    ghost var version := verifier.Version(first.path, sections, first.file.value);
    var seen := verifier.Verify(first);
    v := verifier.Verify(second);
    was :|
      Faithful(r.codec.decode(first.file.value), PatternOf(sections, r), r.space, was) && Judged(was, r, second, v);
    PatternIsOneLine(sections, r);
    now := PartsWithSpans(r.codec.decode(second.file.value), PatternOf(sections, r), r.space);
    if LinesOf(was, text).Some? || LinesOf(now, text).Some? {
      StaleIsRightIff(was, now, r, second, text, v);
      RightIsJudged(r, second, now, v);
    }
  }

  lemma RightIsJudged(r: Reader, q: Query, parts: seq<Part>, v: Verdict)
    requires q.file.Some? && q.kind != Doc && !SpanHolds(q.file.value, q.origin, q.want, r)
    requires Faithful(r.codec.decode(q.file.value), PatternOf(q.kind == DocSection, r), r.space, parts)
    ensures Right(r, q, v) <==> Judged(parts, r, q, v)
  {
    hide Judged, Faithful, Normalize, Strip, Count, SpanHolds;
    if Right(r, q, v) {
      var raw, p := r.codec.decode(q.file.value), PatternOf(q.kind == DocSection, r);
      var other :| Faithful(raw, p, r.space, other) && Judged(other, r, q, v);
      FaithfulIsUnique(raw, p, r.space, other, parts);
      AlikeJudges(other, parts, r, q, v);
    }
  }

  /** A one-line text. */
  predicate Line(s: string) { CR !in s && LF !in s }

  lemma {:induction false} LineIsOnePart(p: Pattern, s: string)
    requires Line(s)
    ensures Split(p, s) == [s] && Normalize(s) == s && Count(s) == 0
  {
    if s != "" {
      LineIsOnePart(p, s[1..]);
      assert s == [s[0]] + s[1..];
    }
  }

  lemma OneLineParts(raw: string, p: Pattern, space: char -> bool, out: seq<Part>)
    requires Line(raw) && raw != "" && !space(raw[0]) && !space(raw[|raw| - 1]) && Faithful(raw, p, space, out)
    ensures |out| == 1 && out[0].text == raw && out[0].first == out[0].last == 1
  {
    hide Intact, Separated, Split, Normalize;
    LineIsOnePart(p, raw);
    assert Numbered(out[0], Split(p, raw), 0, space);
    assert Strip(raw, space) == raw && Lead(raw, space) == 0;
  }

  lemma {:induction false} StripShortens(s: string, space: char -> bool)
    ensures |Strip(s, space)| <= |s|
  {
    TrimShortens(s[Lead(s, space)..], space);
  }

  lemma {:induction false} TrimShortens(s: string, space: char -> bool)
    ensures |TrimEnd(s, space)| <= |s|
  {
    if s != "" && space(s[|s| - 1]) { TrimShortens(s[..|s| - 1], space); }
  }

  lemma {:induction false} NormalizeShortens(raw: string)
    ensures |Normalize(raw)| <= |raw|
    decreases |raw|
  {
    if raw != "" { NormalizeShortens(raw[Unit(raw)..]); }
  }

  /**
   In a file that is not UTF-8 a part's span counts the bytes of replacement characters: the one part of a file of
   two bytes, the first not UTF-8, ends at byte four, and the unchanged file does not pass for intact.
   */
  lemma NotUtf8(r: Reader, out: seq<Part>, want: string)
    requires r.codec.decode([255, 65]) == ['\U{FFFD}', 'A'] && !r.space('\U{FFFD}') && !r.space('A')
    requires Faithful(r.codec.decode([255, 65]), PatternOf(false, r), r.space, out)
    ensures |out| == 1 && !SpanHolds([255, 65], Some(Origin(out[0].start, out[0].end, None)), want, r)
  {
    hide Strip, Normalize, PatternOf, Split, Numbered;
    var raw := ['\U{FFFD}', 'A'];
    OneLineParts(raw, PatternOf(false, r), r.space, out);
    assert Intact(raw, out[0], r.space);
    var cut := Cut(raw, out[0].start, out[0].end);
    StripShortens(Normalize(cut), r.space);
    NormalizeShortens(cut);
    assert CharAt(raw, out[0].end) == 2 && raw[..2] == raw;
    assert Bytes(raw) == 3 + Bytes(raw[1..]);
  }

  /** 4096 letters, one more, and 4096 letters. */
  function Long(c: char): string { Letters() + [c] + Letters() }

  function Letters(): string { seq(END, _ => 'a') }

  lemma LongShape(codec: Codec, c: char)
    requires IsUtf8(codec) && Size(c) == 1
    ensures |Encoded(codec, Long(c))| == 2 * END + 1
    ensures Head(Encoded(codec, Long(c))) == Encoded(codec, Letters()) == Tail(Encoded(codec, Long(c)))
  {
    hide Bytes, Encoded, Letters;
    LettersSize(codec);
    EncodedSize(codec, [c]);
    OneSize(c);
    EncodedConcat(codec, Letters() + [c], Letters());
    EncodedConcat(codec, Letters(), [c]);
    var letters, one := Encoded(codec, Letters()), Encoded(codec, [c]);
    assert (letters + one + letters)[..END] == letters;
    assert (letters + one + letters)[END + 1..] == letters;
  }

  lemma OneSize(c: char)
    ensures Bytes([c]) == Size(c)
  {
  }

  lemma LettersSize(codec: Codec)
    requires IsUtf8(codec)
    ensures |Encoded(codec, Letters())| == END
  {
    EncodedSize(codec, Letters());
    AllOne(Letters());
  }

  lemma {:induction false} AllOne(s: string)
    requires forall i :: 0 <= i < |s| ==> s[i] == 'a'
    ensures Bytes(s) == |s|
  {
    if s != "" { AllOne(s[1..]); }
  }

  lemma LongIsLine(c: char)
    requires c !in " \t\r\n"
    ensures Line(Long(c)) && Long(c) != "" && Long(c)[0] == 'a' == Long(c)[|Long(c)| - 1]
  {
  }

  lemma JudgedOne(parts: seq<Part>, r: Reader, q: Query, v: Verdict)
    requires |parts| == 1 && parts[0].first == parts[0].last == 1 && q.kind == LogEntry && q.head == ""
    ensures Judged(parts, r, q, v) <==>
            v == if r.digest(parts[0].text) != q.want then Missing
              else if q.origin.Some? then MovedTo(1, 1) else IntactAt(1, 1)
  {
    assert Strip("", r.space) == "";
    assert !Alike(r, q)(parts[0]);
    if r.digest(parts[0].text) == q.want { assert Bears(r, q.want)(parts[0]) && FirstWith(parts, Bears(r, q.want), 0); }
  }

  /** What a file that is one long line says of a record without a head. */
  lemma LongSays(r: Reader, c: char, parts: seq<Part>, q: Query, v: Verdict)
    requires c !in " \t\r\n" && !r.space('a') && q.kind == LogEntry && q.head == ""
    requires Faithful(Long(c), PatternOf(false, r), r.space, parts)
    ensures Judged(parts, r, q, v) <==>
            v == if r.digest(Long(c)) != q.want then Missing
              else if q.origin.Some? then MovedTo(1, 1) else IntactAt(1, 1)
  {
    hide Faithful, Judged, Long, PatternOf;
    LongIsLine(c);
    OneLineParts(Long(c), PatternOf(false, r), r.space, parts);
    JudgedOne(parts, r, q, v);
  }

  lemma LongRead(codec: Codec, c: char, space: char -> bool)
    requires IsUtf8(codec) && c !in " \t\r\n" && !space('a')
    ensures codec.decode(Encoded(codec, Long(c))) == Long(c) && Strip(Normalize(Long(c)), space) == Long(c)
    ensures Encoded(codec, Long(c))[0..|Encoded(codec, Long(c))|] == Encoded(codec, Long(c))
  {
    hide Long, Encoded;
    LongIsLine(c);
    LineIsOnePart(SectionSplit(space), Long(c));
  }

  /**
   A file of 8193 bytes is asked about, then its middle byte changes, then the record of its old text is asked about:
   the answer is that the record moved, to the lines of a text that is no longer there.
   */
  method EditedMiddle(digest: string -> string, title: string -> string, codec: Codec, hash: seq<Byte> -> int)
    returns (r: Reader, q: Query, v: Verdict)
    requires IsUtf8(codec) && digest(Long('x')) != digest(Long('y'))
    ensures IsReader(r) && Right(r, q, Missing) && v == MovedTo(1, 1) && !Right(r, q, v)
  {
    r := Reader(digest, title, c => '0' <= c <= '9', c => c in " \t\r\n", codec);
    hide Long, Encoded, IsUtf8, Normalize, Strip, Faithful, Judged, PatternOf, Head, Tail;
    LongShape(codec, 'x');
    LongShape(codec, 'y');
    LongRead(codec, 'x', r.space);
    LongRead(codec, 'y', r.space);
    var verifier := new Verifier(r, hash);
    var before, after := Encoded(codec, Long('x')), Encoded(codec, Long('y'));
    q := Query("log.md", Some(after), LogEntry, Some(Origin(0, |after|, Some((1, 1)))), digest(Long('x')), "", "",
           None);
    var seen := verifier.Verify(Query("log.md", Some(before), LogEntry, None, digest(Long('x')), "", "", None));
    v := verifier.Verify(q);
    ghost var stale :| Faithful(Long('x'), PatternOf(false, r), r.space, stale) && Judged(stale, r, q, v);
    LongSays(r, 'x', stale, q, v);
    PatternIsOneLine(false, r);
    var now := PartsWithSpans(Long('y'), PatternOf(false, r), r.space);
    LongSays(r, 'y', now, q, Missing);
    if Right(r, q, v) { RightIsUnique(r, q, v, Missing); }
  }
}
