/**
 Origin spans of `provenance.py`: a file split into parts with byte and line spans, by a fast path and by a walk
 for lone carriage returns, and the check that a recorded span still holds its text.
 */
module Provenance {
  import opened Wrappers

  const CR := '\r'
  const LF := '\n'

  // ----- universal newlines -----

  /** `raw.replace('\r\n', '\n')`. */
  function ReplaceCrLf(raw: string): string {
    if |raw| >= 2 && raw[0] == CR && raw[1] == LF then [LF] + ReplaceCrLf(raw[2..])
    else if raw == "" then "" else [raw[0]] + ReplaceCrLf(raw[1..])
  }

  /** `raw.replace('\r', '\n')`. */
  function ReplaceCr(raw: string): (r: string)
    ensures |r| == |raw|
  {
    if raw == "" then "" else [if raw[0] == CR then LF else raw[0]] + ReplaceCr(raw[1..])
  }

  /** Characters of the first line break or character: a carriage return takes its line feed along. */
  function Unit(raw: string): (k: nat)
    requires raw != ""
    ensures 1 <= k <= |raw|
  {
    if |raw| >= 2 && raw[0] == CR && raw[1] == LF then 2 else 1
  }

  /** What text mode reads, unit by unit. */
  function Normalize(raw: string): string
    decreases |raw|
  {
    if raw == "" then "" else [if raw[0] == CR then LF else raw[0]] + Normalize(raw[Unit(raw)..])
  }

  /** The two replacements of `normalize` are one pass. */
  lemma {:induction false} TwoReplacements(raw: string)
    ensures Normalize(raw) == ReplaceCr(ReplaceCrLf(raw))
    decreases |raw|
  {
    if raw != "" {
      TwoReplacements(raw[Unit(raw)..]);
      var first := if Unit(raw) == 2 then LF else raw[0];
      assert ReplaceCrLf(raw) == [first] + ReplaceCrLf(raw[Unit(raw)..]);
    }
  }

  /** Every carriage return is followed by a line feed: the fast path's condition. */
  predicate NoLoneCr(raw: string) {
    forall i :: 0 <= i < |raw| && raw[i] == CR ==> i + 1 < |raw| && raw[i + 1] == LF
  }

  // ----- splitting -----

  datatype Class = Exactly(c: char) | Digit

  /** Lookahead alternatives, each a sequence of character classes; no class is a line break. */
  datatype Pattern = Pattern(heads: seq<seq<Class>>, digit: char -> bool)

  predicate Accepts(p: Pattern, one: Class, c: char) {
    match one
    case Exactly(d) => c == d
    case Digit => p.digit(c)
  }

  predicate StartsWith(p: Pattern, head: seq<Class>, text: string) {
    head == [] || (text != "" && Accepts(p, head[0], text[0]) && StartsWith(p, head[1..], text[1..]))
  }

  predicate Ahead(p: Pattern, text: string) { exists h :: 0 <= h < |p.heads| && StartsWith(p, p.heads[h], text) }

  ghost predicate BreakFree(p: Pattern, head: seq<Class>) {
    forall k :: 0 <= k < |head| ==> !Accepts(p, head[k], CR) && !Accepts(p, head[k], LF)
  }

  ghost predicate OneLine(p: Pattern) { forall h :: 0 <= h < |p.heads| ==> BreakFree(p, p.heads[h]) }

  function Text(s: string): seq<Class> { if s == "" then [] else [Exactly(s[0])] + Text(s[1..]) }

  /** `\n(?=## )` and `\n(?=- 20\d\d-|## 20\d\d-)`. */
  function SectionSplit(digit: char -> bool): Pattern { Pattern([Text("## ")], digit) }

  function LogSplit(digit: char -> bool): Pattern {
    Pattern([Text("- 20") + [Digit, Digit] + Text("-"), Text("## 20") + [Digit, Digit] + Text("-")], digit)
  }

  lemma PatternsAreOneLine(digit: char -> bool)
    requires !digit(CR) && !digit(LF)
    ensures OneLine(SectionSplit(digit)) && OneLine(LogSplit(digit))
  {
    hide Text, BreakFree;
    TextIsBreakFree(SectionSplit(digit), "## ");
    DateIsBreakFree(LogSplit(digit), "- 20");
    DateIsBreakFree(LogSplit(digit), "## 20");
  }

  lemma DateIsBreakFree(p: Pattern, start: string)
    requires CR !in start && LF !in start && !p.digit(CR) && !p.digit(LF)
    ensures BreakFree(p, Text(start) + [Digit, Digit] + Text("-"))
  {
    hide Text;
    TextIsBreakFree(p, start);
    TextIsBreakFree(p, "-");
  }

  lemma {:induction false} TextIsBreakFree(p: Pattern, s: string)
    requires CR !in s && LF !in s
    ensures BreakFree(p, Text(s))
  {
    if s != "" { TextIsBreakFree(p, s[1..]); }
  }

  /** `pattern.split(text)`: the line feed before each lookahead is consumed. */
  function Split(p: Pattern, text: string): (parts: seq<string>)
    ensures parts != []
  {
    if text == "" then [""]
    else
      var rest := Split(p, text[1..]);
      if text[0] == LF && Ahead(p, text[1..]) then [""] + rest else [[text[0]] + rest[0]] + rest[1..]
  }

  lemma {:induction false} StartsAlike(p: Pattern, head: seq<Class>, raw: string)
    requires BreakFree(p, head)
    ensures StartsWith(p, head, Normalize(raw)) <==> StartsWith(p, head, raw)
  {
    if head != [] && raw != "" && raw[0] != CR {
      assert Normalize(raw)[1..] == Normalize(raw[1..]);
      StartsAlike(p, head[1..], raw[1..]);
    }
  }

  lemma AheadAlike(p: Pattern, raw: string)
    requires OneLine(p)
    ensures Ahead(p, Normalize(raw)) <==> Ahead(p, raw)
  {
    forall h | 0 <= h < |p.heads|
      ensures StartsWith(p, p.heads[h], Normalize(raw)) <==> StartsWith(p, p.heads[h], raw)
    {
      StartsAlike(p, p.heads[h], raw);
    }
  }

  /** A piece without the dangling half of a line break whose line feed the split consumed. */
  function TrimCr(piece: string): string {
    if piece != "" && piece[|piece| - 1] == CR then piece[..|piece| - 1] else piece
  }

  lemma NormalizeHead(c: char, rest: string)
    requires c != CR
    ensures Normalize([c] + rest) == [c] + Normalize(rest)
  {
    assert ([c] + rest)[1..] == rest;
  }

  lemma TrimHead(c: char, rest: string)
    requires c != CR
    ensures Normalize(TrimCr([c] + rest)) == [c] + Normalize(TrimCr(rest))
  {
    var piece := [c] + rest;
    if rest != "" && rest[|rest| - 1] == CR { assert piece[..|piece| - 1] == [c] + rest[..|rest| - 1]; }
    NormalizeHead(c, TrimCr(rest));
    assert TrimCr(piece) == [c] + TrimCr(rest);
  }

  lemma TrimCrLf(rest: string)
    ensures Normalize(TrimCr([CR, LF] + rest)) == [LF] + Normalize(TrimCr(rest))
  {
    var piece := [CR, LF] + rest;
    if rest != "" && rest[|rest| - 1] == CR { assert piece[..|piece| - 1] == [CR, LF] + rest[..|rest| - 1]; }
    assert TrimCr(piece) == [CR, LF] + TrimCr(rest);
    assert ([CR, LF] + TrimCr(rest))[2..] == TrimCr(rest);
  }

  ghost predicate SameParts(pieces: seq<string>, parts: seq<string>) {
    |pieces| == |parts| && forall k :: 0 <= k < |parts| ==> Normalize(TrimCr(pieces[k])) == parts[k]
  }

  lemma SplitCons(p: Pattern, c: char, rest: string)
    ensures Split(p, [c] + rest) ==
            if c == LF && Ahead(p, rest) then [""] + Split(p, rest) else [[c] + Split(p, rest)[0]] + Split(p, rest)[1..]
  {
    assert ([c] + rest)[1..] == rest;
  }

  lemma SameSplitHere(pieces: seq<string>, parts: seq<string>, piece: string)
    requires SameParts(pieces, parts) && Normalize(TrimCr(piece)) == ""
    ensures SameParts([piece] + pieces, [""] + parts)
  {
  }

  lemma SameLonger(pieces: seq<string>, parts: seq<string>, piece: string, part: string)
    requires SameParts(pieces, parts) && pieces != [] && Normalize(TrimCr(piece)) == part
    ensures SameParts([piece] + pieces[1..], [part] + parts[1..])
  {
  }

  /** A carriage return with its line feed, split as the regular expression sees it. */
  lemma SplitCrLf(p: Pattern, rest: string)
    ensures Split(p, [CR, LF] + rest) ==
            if Ahead(p, rest) then [[CR]] + Split(p, rest) else [[CR, LF] + Split(p, rest)[0]] + Split(p, rest)[1..]
  {
    assert CR != LF;
    hide *;
    SplitCons(p, LF, rest);
    SplitCons(p, CR, [LF] + rest);
    assert [CR] + ([LF] + rest) == [CR, LF] + rest;
    assert [CR] + ([LF] + Split(p, rest)[0]) == [CR, LF] + Split(p, rest)[0];
    assert [CR] + "" == [CR];
    var parts := Split(p, rest);
    assert ([""] + parts)[1..] == parts && ([[LF] + parts[0]] + parts[1..])[1..] == parts[1..];
  }

  /** Splitting the raw text and splitting what text mode reads give the same parts. */
  lemma {:induction false} SplitAlike(p: Pattern, raw: string)
    requires OneLine(p) && NoLoneCr(raw)
    ensures SameParts(Split(p, raw), Split(p, Normalize(raw)))
    decreases |raw|
  {
    if raw != "" {
      var rest := raw[Unit(raw)..];
      assert NoLoneCr(rest);
      SplitAlike(p, rest);
      AheadAlike(p, rest);
      var pieces, parts := Split(p, rest), Split(p, Normalize(rest));
      FirstAlike(pieces, parts);
      hide Split, SameParts, Ahead;
      if raw[0] == CR {
        assert raw == [CR, LF] + rest && Normalize(raw) == [LF] + Normalize(rest);
        SplitCrLf(p, rest);
        SplitCons(p, LF, Normalize(rest));
        TrimCrLf(pieces[0]);
        SameLonger(pieces, parts, [CR, LF] + pieces[0], [LF] + parts[0]);
        SameSplitHere(pieces, parts, [CR]);
      } else {
        assert raw == [raw[0]] + rest && Normalize(raw) == [raw[0]] + Normalize(rest);
        SplitCons(p, raw[0], rest);
        SplitCons(p, raw[0], Normalize(rest));
        TrimHead(raw[0], pieces[0]);
        SameLonger(pieces, parts, [raw[0]] + pieces[0], [raw[0]] + parts[0]);
        SameSplitHere(pieces, parts, "");
      }
    }
  }

  lemma FirstAlike(pieces: seq<string>, parts: seq<string>)
    requires SameParts(pieces, parts) && pieces != []
    ensures parts != [] && Normalize(TrimCr(pieces[0])) == parts[0]
  {
  }

  // ----- bytes -----

  /** Bytes of a character in UTF-8 (section 3 of RFC 3629). */
  function Size(c: char): (n: nat)
    ensures 1 <= n <= 4
  {
    if c as int < 0x80 then 1 else if c as int < 0x800 then 2 else if c as int < 0x10000 then 3 else 4
  }

  function Bytes(s: string): nat { if s == "" then 0 else Size(s[0]) + Bytes(s[1..]) }

  lemma {:induction false} BytesConcat(a: string, b: string)
    ensures Bytes(a + b) == Bytes(a) + Bytes(b)
  {
    if a == "" {
      assert a + b == b;
    } else {
      assert (a + b)[1..] == a[1..] + b;
      BytesConcat(a[1..], b);
    }
  }

  /** The character that starts at a byte position. */
  function CharAt(raw: string, at: nat): (i: nat)
    ensures i <= |raw|
  {
    if raw == "" || at < Size(raw[0]) then 0 else 1 + CharAt(raw[1..], at - Size(raw[0]))
  }

  lemma {:induction false} CharAtByte(raw: string, i: nat)
    requires i <= |raw|
    ensures CharAt(raw, Bytes(raw[..i])) == i
  {
    if i > 0 {
      assert raw[..i][1..] == raw[1..][..i - 1];
      CharAtByte(raw[1..], i - 1);
    }
  }

  /** The byte position is that of a character, or the end. */
  ghost predicate Aligned(raw: string, at: nat) { at == Bytes(raw[..CharAt(raw, at)]) }

  /** The characters between two byte positions. */
  function Cut(raw: string, start: nat, end: nat): string {
    if CharAt(raw, start) <= CharAt(raw, end) then raw[CharAt(raw, start)..CharAt(raw, end)] else ""
  }

  lemma CutOf(raw: string, i: nat, j: nat)
    requires i <= j <= |raw|
    ensures Cut(raw, Bytes(raw[..i]), Bytes(raw[..j])) == raw[i..j]
    ensures Aligned(raw, Bytes(raw[..i])) && Aligned(raw, Bytes(raw[..j]))
  {
    CharAtByte(raw, i);
    CharAtByte(raw, j);
  }

  // ----- stripping and lines -----

  /** Whitespace, line breaks included. */
  ghost predicate IsSpace(space: char -> bool) { space(LF) && space(CR) }

  function Lead(s: string, space: char -> bool): (k: nat)
    ensures k <= |s|
  {
    if s != "" && space(s[0]) then 1 + Lead(s[1..], space) else 0
  }

  function TrimEnd(s: string, space: char -> bool): string {
    if s != "" && space(s[|s| - 1]) then TrimEnd(s[..|s| - 1], space) else s
  }

  function Strip(s: string, space: char -> bool): string { TrimEnd(s[Lead(s, space)..], space) }

  lemma {:induction false} LeadOfMore(s: string, c: char, space: char -> bool)
    requires space(c)
    ensures Lead(s + [c], space) == if Lead(s, space) == |s| then |s| + 1 else Lead(s, space)
  {
    if s == "" {
      assert s + [c] == [c];
    } else if space(s[0]) {
      assert (s + [c])[1..] == s[1..] + [c];
      LeadOfMore(s[1..], c, space);
    }
  }

  lemma StripTrailing(s: string, c: char, space: char -> bool)
    requires space(c)
    ensures Strip(s + [c], space) == Strip(s, space)
  {
    LeadOfMore(s, c, space);
    var k := Lead(s, space);
    if k < |s| {
      assert (s + [c])[k..] == s[k..] + [c];
      assert (s[k..] + [c])[..|s[k..]|] == s[k..];
    }
  }

  lemma {:induction false} NormalizeTrailingCr(s: string)
    ensures Normalize(s + [CR]) == Normalize(s) + [LF]
    decreases |s|
  {
    if s != "" {
      var k := Unit(s);
      NormalizeTrailingCr(s[k..]);
      assert (s + [CR])[k..] == s[k..] + [CR];
    }
  }

  /** The dangling carriage return does not survive stripping. */
  lemma StripPiece(piece: string, space: char -> bool)
    requires IsSpace(space)
    ensures Strip(Normalize(piece), space) == Strip(Normalize(TrimCr(piece)), space)
  {
    var t := TrimCr(piece);
    if t != piece {
      assert piece == t + [CR];
      NormalizeTrailingCr(t);
      StripTrailing(Normalize(t), LF, space);
    }
  }

  /** `text.count('\n')`. */
  function Count(s: string): nat { if s == "" then 0 else (if s[0] == LF then 1 else 0) + Count(s[1..]) }

  lemma {:induction false} CountConcat(a: string, b: string)
    ensures Count(a + b) == Count(a) + Count(b)
  {
    if a == "" {
      assert a + b == b;
    } else {
      assert (a + b)[1..] == a[1..] + b;
      CountConcat(a[1..], b);
    }
  }

  /** The line on which part `k` starts. */
  function LineAt(parts: seq<string>, k: nat): nat
    requires k <= |parts|
  {
    if k == 0 then 1 else LineAt(parts, k - 1) + Count(parts[k - 1]) + 1
  }

  /** Where part `k` starts: one character was consumed between any two parts. */
  function Offset(parts: seq<string>, k: nat): nat
    requires k <= |parts|
  {
    if k == 0 then 0 else Offset(parts, k - 1) + |parts[k - 1]| + 1
  }

  lemma {:induction false} OffsetCons(first: string, rest: seq<string>, k: nat)
    requires 1 <= k <= |rest| + 1
    ensures Offset([first] + rest, k) == |first| + 1 + Offset(rest, k - 1)
  {
    if k > 1 {
      OffsetCons(first, rest, k - 1);
      assert ([first] + rest)[k - 1] == rest[k - 2];
    }
  }

  lemma {:induction false} OffsetLonger(c: char, parts: seq<string>, k: nat)
    requires 1 <= k <= |parts|
    ensures Offset([[c] + parts[0]] + parts[1..], k) == Offset(parts, k) + 1
  {
    if k > 1 { OffsetLonger(c, parts, k - 1); }
  }

  /** Part `k` of a split lies at its offset, and a line feed follows it, or the end. */
  ghost predicate Lies(text: string, parts: seq<string>, k: nat)
    requires k < |parts|
  {
    var at := Offset(parts, k);
    && at + |parts[k]| <= |text| && text[at..at + |parts[k]|] == parts[k]
    && (k + 1 < |parts| ==> at + |parts[k]| < |text| && text[at + |parts[k]|] == LF)
    && (k + 1 == |parts| ==> at + |parts[k]| == |text|)
  }

  lemma LiesHere(text: string, parts: seq<string>, k: nat)
    requires k < |parts| && Lies(text, parts, k)
    ensures Lies([LF] + text, [""] + parts, k + 1)
  {
    OffsetCons("", parts, k + 1);
    var more, all, at := [LF] + text, [""] + parts, Offset(parts, k);
    assert more[at + 1..at + 1 + |parts[k]|] == text[at..at + |parts[k]|];
    assert all[k + 1] == parts[k];
  }

  lemma LiesLonger(c: char, text: string, parts: seq<string>, k: nat)
    requires k < |parts| && Lies(text, parts, k)
    ensures Lies([c] + text, [[c] + parts[0]] + parts[1..], k)
  {
    var more, all, at := [c] + text, [[c] + parts[0]] + parts[1..], Offset(parts, k);
    if k == 0 {
      assert more[..1 + |parts[0]|] == [c] + text[..|parts[0]|];
    } else {
      OffsetLonger(c, parts, k);
      assert more[at + 1..at + 1 + |parts[k]|] == text[at..at + |parts[k]|];
      assert all[k] == parts[k];
    }
  }

  lemma {:induction false} SplitLies(p: Pattern, text: string, k: nat)
    requires k < |Split(p, text)|
    ensures Lies(text, Split(p, text), k)
  {
    if text != "" {
      hide *;
      var rest := text[1..];
      assert text == [text[0]] + rest;
      SplitCons(p, text[0], rest);
      var parts := Split(p, rest);
      if text[0] == LF && Ahead(p, rest) {
        if k > 0 { SplitLies(p, rest, k - 1); LiesHere(rest, parts, k - 1); } else { FirstIsEmpty(text, parts); }
      } else {
        SplitLies(p, rest, k);
        LiesLonger(text[0], rest, parts, k);
      }
    }
  }

  lemma FirstIsEmpty(text: string, parts: seq<string>)
    requires text != "" && text[0] == LF && parts != []
    ensures Lies(text, [""] + parts, 0)
  {
  }

  lemma LeadFits(text: string, parts: seq<string>, k: nat, lead: nat)
    requires k < |parts| && Lies(text, parts, k) && lead <= |parts[k]|
    ensures Offset(parts, k) + lead <= |text|
    ensures text[..Offset(parts, k) + lead] == text[..Offset(parts, k)] + parts[k][..lead]
  {
    hide Offset;
    SliceLead(text, Offset(parts, k), |parts[k]|, lead);
  }

  lemma SliceLead(text: string, at: nat, n: nat, lead: nat)
    requires at + n <= |text| && lead <= n
    ensures text[..at + lead] == text[..at] + text[at..at + n][..lead]
  {
  }

  /** Between two parts there is exactly one line break. */
  lemma BreakBefore(text: string, parts: seq<string>, k: nat)
    requires 0 < k < |parts| && Lies(text, parts, k - 1) && Offset(parts, k) <= |text|
    ensures Offset(parts, k) == Offset(parts, k - 1) + |parts[k - 1]| + 1
    ensures Count(text[..Offset(parts, k)]) == Count(text[..Offset(parts, k) - 1]) + 1
  {
    var at := Offset(parts, k);
    assert text[..at] == text[..at - 1] + [LF];
    CountConcat(text[..at - 1], [LF]);
    assert Count([LF]) == 1;
  }

  lemma NothingCounted(text: string)
    ensures Count(text[..0]) == 0
  {
  }

  /** Line numbers count the line breaks before: at the start of a part, and after its leading blank lines. */
  lemma {:induction false} LinesCountBreaks(p: Pattern, text: string, k: nat, lead: nat)
    requires k < |Split(p, text)| && lead <= |Split(p, text)[k]|
    ensures var parts := Split(p, text);
            Offset(parts, k) + lead <= |text|
            && LineAt(parts, k) + Count(parts[k][..lead]) == 1 + Count(text[..Offset(parts, k) + lead])
  {
    hide Split, Count, Lies;
    var parts := Split(p, text);
    SplitLies(p, text, k);
    var at := Offset(parts, k);
    LeadFits(text, parts, k, lead);
    CountConcat(text[..at], parts[k][..lead]);
    if k > 0 {
      LinesCountBreaks(p, text, k - 1, |parts[k - 1]|);
      SplitLies(p, text, k - 1);
      BreakBefore(text, parts, k);
      assert parts[k - 1][..|parts[k - 1]|] == parts[k - 1];
    } else {
      NothingCounted(text);
    }
  }

  // ----- the fast path -----

  /** Text, byte span and lines of one part. */
  datatype Part = Part(text: string, start: nat, end: nat, first: nat, last: nat)

  /** The part's text and lines, as text mode would number them. */
  ghost predicate Numbered(part: Part, parts: seq<string>, k: nat, space: char -> bool)
    requires k < |parts|
  {
    && part.text == Strip(parts[k], space)
    && part.first == LineAt(parts, k) + Count(parts[k][..Lead(parts[k], space)])
    && part.last == part.first + Count(part.text)
  }

  /** The byte offset of a character. */
  function Before(raw: string, i: nat): nat { if i <= |raw| then Bytes(raw[..i]) else 0 }

  /** The raw characters `i .. j` are the part's bytes. */
  ghost predicate Spans(part: Part, raw: string, i: nat, j: nat) {
    i <= j <= |raw| && part.start == Before(raw, i) && part.end == Before(raw, j)
  }

  lemma PieceEnds(raw: string, pieces: seq<string>, k: nat)
    requires k < |pieces| && Lies(raw, pieces, k)
    ensures var i, j := Offset(pieces, k), Offset(pieces, k) + |pieces[k]|;
            && j <= |raw| && Bytes(raw[..j]) == Bytes(raw[..i]) + Bytes(pieces[k])
            && (k + 1 < |pieces| ==> Bytes(raw[..Offset(pieces, k + 1)]) == Bytes(raw[..j]) + 1)
  {
    var i, j := Offset(pieces, k), Offset(pieces, k) + |pieces[k]|;
    assert raw[..j] == raw[..i] + pieces[k];
    BytesConcat(raw[..i], pieces[k]);
    if k + 1 < |pieces| {
      assert raw[..j + 1] == raw[..j] + [LF];
      BytesConcat(raw[..j], [LF]);
    }
  }

  /** One entry of the result. */
  function PartOf(norm: string, start: nat, end: nat, line: nat, space: char -> bool): Part {
    var stripped := Strip(norm, space);
    var first := line + Count(norm[..Lead(norm, space)]);
    Part(stripped, start, end, first, first + Count(stripped))
  }

  /** Where the pieces of the raw text lie, in characters and in bytes. */
  lemma PieceSpans(p: Pattern, raw: string, k: nat)
    requires k < |Split(p, raw)|
    ensures var pieces := Split(p, raw);
            var i, j := Offset(pieces, k), Offset(pieces, k) + |pieces[k]|;
            && i <= j <= |raw| && Before(raw, j) == Before(raw, i) + Bytes(pieces[k])
            && (k + 1 < |pieces| ==> Offset(pieces, k + 1) == j + 1 && Before(raw, j + 1) == Before(raw, j) + 1)
  {
    hide Split;
    SplitLies(p, raw, k);
    PieceEnds(raw, Split(p, raw), k);
  }

  /** All entries so far: texts and lines as text mode numbers them, spans as given. */
  ghost predicate Entered(out: seq<Part>, raw: string, parts: seq<string>, space: char -> bool, at: seq<Stretch>) {
    |out| <= |parts| == |at|
      && forall k :: 0 <= k < |out| ==> Numbered(out[k], parts, k, space) && Spans(out[k], raw, at[k].from, at[k].to)
  }

  lemma EnteredMore(out: seq<Part>, part: Part, raw: string, parts: seq<string>, space: char -> bool, at: seq<Stretch>)
    requires Entered(out, raw, parts, space, at) && |out| < |parts|
    requires Numbered(part, parts, |out|, space) && Spans(part, raw, at[|out|].from, at[|out|].to)
    ensures Entered(out + [part], raw, parts, space, at)
  {
    hide Numbered, Spans;
  }

  /** A stretch of characters. */
  datatype Stretch = Stretch(from: nat, to: nat)

  /** Where the parts of a split lie. */
  function Stretches(parts: seq<string>): (at: seq<Stretch>)
    ensures |at| == |parts|
  {
    seq(|parts|, k requires 0 <= k < |parts| => Stretch(Offset(parts, k), Offset(parts, k) + |parts[k]|))
  }

  /** The next entry of the fast path. */
  lemma FastEntry(raw: string, p: Pattern, parts: seq<string>, k: nat, out: seq<Part>, bytePos: nat,
      space: char -> bool)
    requires |parts| == |Split(p, raw)| && k == |out| < |parts|
    requires Entered(out, raw, parts, space, Stretches(Split(p, raw)))
             && bytePos == Before(raw, Offset(Split(p, raw), k))
    ensures var piece := Split(p, raw)[k];
            && Entered(out + [PartOf(parts[k], bytePos, bytePos + Bytes(piece), LineAt(parts, k), space)], raw, parts,
                 space,
                       Stretches(Split(p, raw)))
            && (k + 1 < |parts| ==> bytePos + Bytes(piece) + 1 == Before(raw, Offset(Split(p, raw), k + 1)))
            && LineAt(parts, k + 1) == LineAt(parts, k) + Count(parts[k]) + 1
  {
    hide *;
    var pieces := Split(p, raw);
    PieceSpans(p, raw, k);
    EntryNumbered(parts, k, space, bytePos, bytePos + Bytes(pieces[k]));
    EntrySpans(raw, Offset(pieces, k), Offset(pieces, k) + |pieces[k]|, parts[k], LineAt(parts, k), space);
    StretchOf(pieces, k);
    EnteredMore(out, PartOf(parts[k], bytePos, bytePos + Bytes(pieces[k]), LineAt(parts, k), space), raw, parts, space,
      Stretches(pieces));
  }

  /** The pieces as text mode reads them, each without its dangling carriage return. */
  function Trimmed(pieces: seq<string>): (parts: seq<string>)
    ensures |parts| == |pieces|
  {
    seq(|pieces|, k requires 0 <= k < |pieces| => Normalize(TrimCr(pieces[k])))
  }

  lemma TrimmedAt(pieces: seq<string>, k: nat)
    requires k < |pieces|
    ensures Trimmed(pieces)[k] == Normalize(TrimCr(pieces[k]))
  {
  }

  method EnterPieces(raw: string, p: Pattern, space: char -> bool) returns (out: seq<Part>)
    ensures |out| == |Split(p, raw)| && Entered(out, raw, Trimmed(Split(p, raw)), space, Stretches(Split(p, raw)))
  {
    hide *;
    var pieces := Split(p, raw);
    ghost var parts := Trimmed(pieces);
    NoBytes(raw, pieces, parts);
    EnteredNone(raw, parts, space, Stretches(pieces));
    out := [];
    var bytePos: nat, linePos: nat := 0, 1;
    for k := 0 to |pieces|
      invariant |out| == k && linePos == LineAt(parts, k)
      invariant k < |pieces| ==> bytePos == Before(raw, Offset(pieces, k))
      invariant Entered(out, raw, parts, space, Stretches(pieces))
    {
      FastEntry(raw, p, parts, k, out, bytePos, space);
      TrimmedAt(pieces, k);
      var size := Bytes(pieces[k]);
      var norm := Normalize(TrimCr(pieces[k]));
      out := out + [PartOf(norm, bytePos, bytePos + size, linePos, space)];
      bytePos := bytePos + size + 1;
      linePos := linePos + Count(norm) + 1;
    }
  }

  lemma TrimmedIsSplit(pieces: seq<string>, parts: seq<string>)
    requires SameParts(pieces, parts)
    ensures Trimmed(pieces) == parts
  {
    hide Normalize, TrimCr;
  }

  /** Files without a lone carriage return: split the raw text itself. */
  method PartsFast(raw: string, p: Pattern, space: char -> bool) returns (out: seq<Part>)
    requires OneLine(p) && NoLoneCr(raw)
    ensures |out| == |Split(p, raw)| == |Split(p, Normalize(raw))|
    ensures Entered(out, raw, Split(p, Normalize(raw)), space, Stretches(Split(p, raw)))
  {
    SplitAlike(p, raw);
    TrimmedIsSplit(Split(p, raw), Split(p, Normalize(raw)));
    out := EnterPieces(raw, p, space);
  }

  lemma StretchOf(parts: seq<string>, k: nat)
    requires k < |parts|
    ensures Stretches(parts)[k] == Stretch(Offset(parts, k), Offset(parts, k) + |parts[k]|)
  {
  }

  lemma EnteredNone(raw: string, parts: seq<string>, space: char -> bool, at: seq<Stretch>)
    requires |at| == |parts|
    ensures Entered([], raw, parts, space, at)
  {
  }

  lemma NoBytes(raw: string, pieces: seq<string>, parts: seq<string>)
    ensures Offset(pieces, 0) == 0 && Before(raw, 0) == 0 && LineAt(parts, 0) == 1
  {
  }

  lemma EntryNumbered(parts: seq<string>, k: nat, space: char -> bool, start: nat, end: nat)
    requires k < |parts|
    ensures Numbered(PartOf(parts[k], start, end, LineAt(parts, k), space), parts, k, space)
    ensures LineAt(parts, k + 1) == LineAt(parts, k) + Count(parts[k]) + 1
  {
  }

  lemma EntrySpans(raw: string, i: nat, j: nat, norm: string, line: nat, space: char -> bool)
    requires i <= j <= |raw|
    ensures Spans(PartOf(norm, Before(raw, i), Before(raw, j), line, space), raw, i, j)
  {
  }

  lemma OffsetNext(parts: seq<string>, k: nat)
    requires k < |parts|
    ensures Offset(parts, k + 1) == Offset(parts, k) + |parts[k]| + 1
  {
  }

  // ----- the walk -----

  /** The raw character where the normalized character `n` starts. */
  function RawAt(raw: string, n: nat): (i: nat)
    ensures i <= |raw|
    decreases n
  {
    if n == 0 || raw == "" then 0 else Unit(raw) + RawAt(raw[Unit(raw)..], n - 1)
  }

  lemma {:induction false} RawAtNext(raw: string, n: nat)
    requires n < |Normalize(raw)|
    ensures RawAt(raw, n) < |raw| && RawAt(raw, n + 1) == RawAt(raw, n) + Unit(raw[RawAt(raw, n)..])
    decreases n
  {
    hide Normalize, RawAt, Unit;
    NothingNormalizes(raw);
    RawAtStep(raw, n);
    RawAtStep(raw, n + 1);
    if n > 0 {
      var k := Unit(raw);
      UnitThenRest(raw);
      RawAtNext(raw[k..], n - 1);
      assert raw[k..][RawAt(raw[k..], n - 1)..] == raw[RawAt(raw, n)..];
    } else {
      RawAtStep(raw[Unit(raw)..], 0);
      assert raw[0..] == raw;
    }
  }

  lemma {:induction false} RawAtEnd(raw: string, n: nat)
    requires n <= |Normalize(raw)|
    ensures RawAt(raw, n) == |raw| <==> n == |Normalize(raw)|
    decreases n
  {
    if n > 0 { RawAtEnd(raw[Unit(raw)..], n - 1); }
  }

  /** The first unit stays a unit when the text is cut behind it. */
  lemma UnitKept(raw: string, tail: string)
    requires raw != "" && tail <= raw[Unit(raw)..]
    ensures Normalize(raw[..Unit(raw)] + tail) == [Normalize(raw)[0]] + Normalize(tail)
  {
    var k := Unit(raw);
    var cut := raw[..k] + tail;
    assert cut[k..] == tail;
    if k == 1 && raw[0] == CR && tail != "" { assert tail[0] == raw[1..][0]; }
  }

  lemma UnitThenRest(raw: string)
    requires raw != ""
    ensures Normalize(raw) == [Normalize(raw)[0]] + Normalize(raw[Unit(raw)..])
  {
  }

  lemma {:induction false} CutPrefix(raw: string, e: nat)
    requires e <= |Normalize(raw)|
    ensures Normalize(raw[..RawAt(raw, e)]) == Normalize(raw)[..e]
    decreases e
  {
    if e > 0 {
      var k := Unit(raw);
      var rest := raw[k..];
      UnitThenRest(raw);
      CutPrefix(rest, e - 1);
      var tail := rest[..RawAt(rest, e - 1)];
      UnitKept(raw, tail);
      hide Normalize;
      assert raw[..RawAt(raw, e)] == raw[..k] + tail;
      assert Normalize(raw)[..e] == [Normalize(raw)[0]] + Normalize(rest)[..e - 1];
    }
  }

  lemma {:induction false} RawAtGrows(raw: string, s: nat, e: nat)
    requires s <= e
    ensures RawAt(raw, s) <= RawAt(raw, e)
    decreases s
  {
    if s > 0 && raw != "" { RawAtGrows(raw[Unit(raw)..], s - 1, e - 1); }
  }

  lemma SliceOfDrop(s: string, k: nat, i: nat, j: nat)
    requires k <= |s| && i <= j <= |s| - k
    ensures s[k..][i..j] == s[k + i..k + j]
  {
  }

  lemma SliceOfCons(c: char, s: string, i: nat, j: nat)
    requires 1 <= i <= j <= |s| + 1
    ensures ([c] + s)[i..j] == s[i - 1..j - 1]
  {
  }

  lemma RawAtStep(raw: string, n: nat)
    ensures n == 0 ==> RawAt(raw, n) == 0
    ensures n > 0 && raw != "" ==> RawAt(raw, n) == Unit(raw) + RawAt(raw[Unit(raw)..], n - 1)
  {
  }

  lemma NothingNormalizes(raw: string)
    requires Normalize(raw) != ""
    ensures raw != ""
  {
  }

  /** A raw stretch between two normalized positions normalizes to the stretch between them. */
  lemma {:induction false} CutNormalizes(raw: string, s: nat, e: nat)
    requires s <= e <= |Normalize(raw)|
    ensures RawAt(raw, s) <= RawAt(raw, e) && Normalize(raw[RawAt(raw, s)..RawAt(raw, e)]) == Normalize(raw)[s..e]
    decreases s
  {
    hide Normalize, RawAt, Unit;
    RawAtGrows(raw, s, e);
    RawAtStep(raw, s);
    if s == 0 {
      CutPrefix(raw, e);
      assert raw[0..RawAt(raw, e)] == raw[..RawAt(raw, e)] && Normalize(raw)[0..e] == Normalize(raw)[..e];
    } else {
      NothingNormalizes(raw);
      var k := Unit(raw);
      var rest := raw[k..];
      UnitThenRest(raw);
      RawAtStep(raw, e);
      CutNormalizes(rest, s - 1, e - 1);
      var i, j := RawAt(rest, s - 1), RawAt(rest, e - 1);
      SliceOfDrop(raw, k, i, j);
      SliceOfCons(Normalize(raw)[0], Normalize(rest), s, e);
    }
  }

  /** `sorted(set(...))`. */
  function SortedInsert(s: seq<nat>, x: nat): (t: seq<nat>)
    requires forall i, j :: 0 <= i < j < |s| ==> s[i] < s[j]
    ensures forall y :: y in t <==> y in s || y == x
    ensures forall i, j :: 0 <= i < j < |t| ==> t[i] < t[j]
  {
    if s == [] || x < s[0] then [x] + s
    else if x == s[0] then s
    else
      var rest := SortedInsert(s[1..], x);
      assert forall i :: 0 <= i < |rest| ==> rest[i] in rest;
      [s[0]] + rest
  }

  /** Starts and ends of the parts, in the normalized text. */
  function Boundaries(parts: seq<string>, k: nat): (wanted: seq<nat>)
    requires k <= |parts|
    ensures forall i, j :: 0 <= i < j < |wanted| ==> wanted[i] < wanted[j]
  {
    if k == 0 then []
    else SortedInsert(SortedInsert(Boundaries(parts, k - 1), Offset(parts, k - 1)),
           Offset(parts, k - 1) + |parts[k - 1]|)
  }

  lemma {:induction false} BoundariesHold(parts: seq<string>, n: nat, k: nat)
    requires k < n <= |parts|
    ensures Offset(parts, k) in Boundaries(parts, n) && Offset(parts, k) + |parts[k]| in Boundaries(parts, n)
  {
    if k < n - 1 { BoundariesHold(parts, n - 1, k); }
  }

  lemma {:induction false} BoundariesFit(p: Pattern, text: string, n: nat)
    requires n <= |Split(p, text)|
    ensures forall x :: x in Boundaries(Split(p, text), n) ==> x <= |text|
  {
    hide Split, SortedInsert, Lies;
    if n > 0 {
      BoundariesFit(p, text, n - 1);
      SplitLies(p, text, n - 1);
      LeadFits(text, Split(p, text), n - 1, |Split(p, text)[n - 1]|);
    }
  }

  ghost predicate Mapped(raw: string, wanted: seq<nat>, k: nat, byteAt: map<nat, nat>)
    requires k <= |wanted|
  {
    forall j :: 0 <= j < k ==> wanted[j] in byteAt && byteAt[wanted[j]] == Before(raw, RawAt(raw, wanted[j]))
  }

  /** One walk over the raw text maps the wanted normalized positions to byte offsets. */
  method Walk(raw: string, wanted: seq<nat>) returns (byteAt: map<nat, nat>)
    requires forall i, j :: 0 <= i < j < |wanted| ==> wanted[i] < wanted[j]
    requires forall j :: 0 <= j < |wanted| ==> wanted[j] <= |Normalize(raw)|
    ensures Mapped(raw, wanted, |wanted|, byteAt)
  {
    byteAt := map[];
    var ni, bi, k, i: nat := 0, 0, 0, 0;
    while i < |raw| && k < |wanted|
      invariant k <= |wanted| && ni <= |Normalize(raw)| && i == RawAt(raw, ni) && bi == Before(raw, i)
      invariant Mapped(raw, wanted, k, byteAt) && forall j :: k <= j < |wanted| ==> wanted[j] >= ni
      decreases |raw| - i
    {
      if wanted[k] == ni {
        byteAt := byteAt[ni := bi];
        k := k + 1;
      }
      RawAtEnd(raw, ni);
      RawAtNext(raw, ni);
      var u := Unit(raw[i..]);
      var step := if u == 2 then 2 else Size(raw[i]);
      StepBytes(raw, i, u);
      bi, i, ni := bi + step, i + u, ni + 1;
    }
    RawAtEnd(raw, ni);
    while k < |wanted|
      invariant k <= |wanted| && Mapped(raw, wanted, k, byteAt)
      invariant k < |wanted| ==> i == |raw| == RawAt(raw, ni) && ni == |Normalize(raw)| && bi == Before(raw, i)
      invariant forall j :: k <= j < |wanted| ==> wanted[j] >= ni
    {
      byteAt := byteAt[wanted[k] := bi];
      k := k + 1;
    }
  }

  lemma StepBytes(raw: string, i: nat, u: nat)
    requires i < |raw| && u == Unit(raw[i..])
    ensures i + u <= |raw| && Before(raw, i + u) == Before(raw, i) + (if u == 2 then 2 else Size(raw[i]))
  {
    assert raw[..i + u] == raw[..i] + raw[i..i + u];
    BytesConcat(raw[..i], raw[i..i + u]);
    assert raw[i..][0] == raw[i];
    if u == 2 {
      assert raw[i..][1] == raw[i + 1];
      assert raw[i..i + u] == [CR] + [LF];
      BytesConcat([CR], [LF]);
    } else {
      assert raw[i..i + u] == [raw[i]];
    }
  }

  /** The raw characters behind the parts of the normalized text. */
  function RawStretches(raw: string, parts: seq<string>): (at: seq<Stretch>)
    ensures |at| == |parts|
  {
    seq(|parts|,
      k requires 0 <= k < |parts| => Stretch(RawAt(raw, Offset(parts, k)), RawAt(raw, Offset(parts, k) + |parts[k]|)))
  }

  lemma RawStretchOf(raw: string, parts: seq<string>, k: nat)
    requires k < |parts|
    ensures RawStretches(raw, parts)[k]
            == Stretch(RawAt(raw, Offset(parts, k)), RawAt(raw, Offset(parts, k) + |parts[k]|))
  {
  }

  /** The byte offsets of every part's start and end. */
  method MapBoundaries(raw: string, p: Pattern, parts: seq<string>) returns (byteAt: map<nat, nat>)
    requires parts == Split(p, Normalize(raw))
    ensures forall k :: 0 <= k < |parts| ==> PartMapped(raw, parts, k, byteAt)
  {
    var wanted := Boundaries(parts, |parts|);
    BoundariesFit(p, Normalize(raw), |parts|);
    assert forall j :: 0 <= j < |wanted| ==> wanted[j] in wanted;
    byteAt := Walk(raw, wanted);
    hide Boundaries, Mapped, Split, Normalize, PartMapped;
    forall k | 0 <= k < |parts| ensures PartMapped(raw, parts, k, byteAt) { MapPart(raw, parts, k, wanted, byteAt); }
  }

  lemma MapPart(raw: string, parts: seq<string>, k: nat, wanted: seq<nat>, byteAt: map<nat, nat>)
    requires k < |parts| && wanted == Boundaries(parts, |parts|) && Mapped(raw, wanted, |wanted|, byteAt)
    ensures PartMapped(raw, parts, k, byteAt)
  {
    hide Boundaries, Mapped, Before, RawAt, Offset;
    BoundariesHold(parts, |parts|, k);
    MappedAt(raw, wanted, byteAt, Offset(parts, k));
    MappedAt(raw, wanted, byteAt, Offset(parts, k) + |parts[k]|);
  }

  lemma MappedPart(raw: string, parts: seq<string>, k: nat, byteAt: map<nat, nat>)
    requires k < |parts| && PartMapped(raw, parts, k, byteAt)
    ensures var s, e := Offset(parts, k), Offset(parts, k) + |parts[k]|;
            && s in byteAt && byteAt[s] == Before(raw, RawAt(raw, s))
            && e in byteAt && byteAt[e] == Before(raw, RawAt(raw, e))
  {
  }

  ghost predicate PartMapped(raw: string, parts: seq<string>, k: nat, byteAt: map<nat, nat>)
    requires k < |parts|
  {
    var s, e := Offset(parts, k), Offset(parts, k) + |parts[k]|;
    && s in byteAt && byteAt[s] == Before(raw, RawAt(raw, s))
    && e in byteAt && byteAt[e] == Before(raw, RawAt(raw, e))
  }

  lemma EnteredMapped(out: seq<Part>, raw: string, parts: seq<string>, k: nat, space: char -> bool)
    requires k == |out| < |parts| && Entered(out, raw, parts, space, RawStretches(raw, parts))
    ensures var i, j := RawAt(raw, Offset(parts, k)), RawAt(raw, Offset(parts, k) + |parts[k]|);
            var part := PartOf(parts[k], Before(raw, i), Before(raw, j), LineAt(parts, k), space);
            Entered(out + [part], raw, parts, space, RawStretches(raw, parts))
    ensures LineAt(parts, k + 1) == LineAt(parts, k) + Count(parts[k]) + 1
    ensures Offset(parts, k + 1) == Offset(parts, k) + |parts[k]| + 1
  {
    hide Normalize, Split, Bytes, Strip, Lead, Count, Numbered, Spans, Offset, LineAt, PartOf, Entered, RawAt,
         RawStretches, Before;
    var at, next := Offset(parts, k), Offset(parts, k) + |parts[k]|;
    var from, to := Before(raw, RawAt(raw, at)), Before(raw, RawAt(raw, next));
    RawAtGrows(raw, at, next);
    OffsetNext(parts, k);
    EntryNumbered(parts, k, space, from, to);
    EntrySpans(raw, RawAt(raw, at), RawAt(raw, next), parts[k], LineAt(parts, k), space);
    RawStretchOf(raw, parts, k);
    EnteredMore(out, PartOf(parts[k], from, to, LineAt(parts, k), space), raw, parts, space, RawStretches(raw, parts));
  }

  /** Lone carriage returns: split what text mode reads and map its boundaries back. */
  method PartsByWalk(raw: string, p: Pattern, space: char -> bool) returns (out: seq<Part>)
    ensures var parts := Split(p, Normalize(raw));
            |out| == |parts| && Entered(out, raw, parts, space, RawStretches(raw, parts))
  {
    hide Normalize, Split, Bytes, Strip, Lead, Count, Numbered, Spans, Offset, LineAt, PartOf, Entered, RawAt,
         RawStretches, PartMapped, Before;
    var parts := Split(p, Normalize(raw));
    var byteAt := MapBoundaries(raw, p, parts);
    NoBytes(raw, parts, parts);
    out := [];
    EnteredNone(raw, parts, space, RawStretches(raw, parts));
    var at, linePos: nat := 0, 1;
    for k := 0 to |parts|
      invariant |out| == k && linePos == LineAt(parts, k) && at == Offset(parts, k)
      invariant Entered(out, raw, parts, space, RawStretches(raw, parts))
    {
      MappedPart(raw, parts, k, byteAt);
      var next := at + |parts[k]|;
      EnteredMapped(out, raw, parts, k, space);
      out := out + [PartOf(parts[k], byteAt[at], byteAt[next], linePos, space)];
      linePos := linePos + Count(parts[k]) + 1;
      at := next + 1;
    }
  }

  lemma MappedAt(raw: string, wanted: seq<nat>, byteAt: map<nat, nat>, n: nat)
    requires Mapped(raw, wanted, |wanted|, byteAt) && n in wanted
    ensures n in byteAt && byteAt[n] == Before(raw, RawAt(raw, n))
  {
  }

  // ----- what the spans are good for -----

  /** The bytes of the span, read back as text and stripped, are the part's text. */
  ghost predicate Intact(raw: string, part: Part, space: char -> bool) {
    && part.start <= part.end <= Bytes(raw) && Aligned(raw, part.start) && Aligned(raw, part.end)
    && Strip(Normalize(Cut(raw, part.start, part.end)), space) == part.text
  }

  lemma {:induction false} BeforeGrows(raw: string, i: nat, j: nat)
    requires i <= j <= |raw|
    ensures Before(raw, i) <= Before(raw, j) <= Bytes(raw)
  {
    assert raw == raw[..j] + raw[j..] && raw[..j] == raw[..i] + raw[i..j];
    BytesConcat(raw[..j], raw[j..]);
    BytesConcat(raw[..i], raw[i..j]);
  }

  lemma SpanText(raw: string, part: Part, i: nat, j: nat)
    requires Spans(part, raw, i, j)
    ensures Cut(raw, part.start, part.end) == raw[i..j] && part.start <= part.end <= Bytes(raw)
    ensures Aligned(raw, part.start) && Aligned(raw, part.end)
  {
    CutOf(raw, i, j);
    BeforeGrows(raw, i, j);
  }

  lemma EntryAt(out: seq<Part>, raw: string, parts: seq<string>, space: char -> bool, at: seq<Stretch>, k: nat)
    requires Entered(out, raw, parts, space, at) && k < |out|
    ensures k < |parts| && k < |at| && Spans(out[k], raw, at[k].from, at[k].to) && out[k].text == Strip(parts[k], space)
  {
    hide Strip, Spans;
  }

  lemma LiesFacts(text: string, parts: seq<string>, k: nat)
    requires k < |parts| && Lies(text, parts, k)
    ensures var i, j := Offset(parts, k), Offset(parts, k) + |parts[k]|;
            j <= |text| && text[i..j] == parts[k] && (k + 1 < |parts| ==> j < |text| && text[j..j + 1] == [LF])
  {
    hide Offset;
  }

  lemma IntactOf(raw: string, part: Part, i: nat, j: nat, space: char -> bool)
    requires Spans(part, raw, i, j) && Strip(Normalize(raw[i..j]), space) == part.text
    ensures Intact(raw, part, space)
  {
    hide Strip, Normalize;
    SpanText(raw, part, i, j);
  }

  lemma PieceIsPart(p: Pattern, raw: string, k: nat)
    requires OneLine(p) && NoLoneCr(raw) && k < |Split(p, raw)|
    ensures |Split(p, raw)| == |Split(p, Normalize(raw))|
            && Normalize(TrimCr(Split(p, raw)[k])) == Split(p, Normalize(raw))[k]
  {
    SplitAlike(p, raw);
  }

  lemma FastIsIntact(raw: string, p: Pattern, space: char -> bool, out: seq<Part>, k: nat)
    requires IsSpace(space) && OneLine(p) && NoLoneCr(raw) && k < |out|
    requires Entered(out, raw, Split(p, Normalize(raw)), space, Stretches(Split(p, raw)))
    ensures Intact(raw, out[k], space)
  {
    hide *;
    var pieces, parts := Split(p, raw), Split(p, Normalize(raw));
    EntryAt(out, raw, parts, space, Stretches(pieces), k);
    PieceIsPart(p, raw, k);
    SplitLies(p, raw, k);
    LiesFacts(raw, pieces, k);
    StretchOf(pieces, k);
    StripPiece(pieces[k], space);
    IntactOf(raw, out[k], Offset(pieces, k), Offset(pieces, k) + |pieces[k]|, space);
  }

  lemma WalkIsIntact(raw: string, p: Pattern, space: char -> bool, out: seq<Part>, k: nat)
    requires k < |out|
             && Entered(out, raw, Split(p, Normalize(raw)), space, RawStretches(raw, Split(p, Normalize(raw))))
    ensures Intact(raw, out[k], space)
  {
    hide *;
    var norm := Normalize(raw);
    var parts := Split(p, norm);
    EntryAt(out, raw, parts, space, RawStretches(raw, parts), k);
    SplitLies(p, norm, k);
    LiesFacts(norm, parts, k);
    RawStretchOf(raw, parts, k);
    var s, e := Offset(parts, k), Offset(parts, k) + |parts[k]|;
    CutNormalizes(raw, s, e);
    IntactOf(raw, out[k], RawAt(raw, s), RawAt(raw, e), space);
  }

  /** Between two neighbours lies nothing but the line break the split consumed. */
  ghost predicate Separated(raw: string, a: Part, b: Part) {
    a.end < b.start <= Bytes(raw) && Normalize(Cut(raw, a.end, b.start)) == [LF]
  }

  lemma SeparatedBy(raw: string, a: Part, b: Part, h: nat, i: nat, j: nat, k: nat)
    requires Spans(a, raw, h, i) && Spans(b, raw, j, k) && i < j && Normalize(raw[i..j]) == [LF]
    ensures Separated(raw, a, b) && b.start == a.end + Bytes(raw[i..j])
  {
    CutOf(raw, i, j);
    BeforeGrows(raw, j, j);
    assert raw[..j] == raw[..i] + raw[i..j];
    BytesConcat(raw[..i], raw[i..j]);
    BytesOfSome(raw[i..j]);
  }

  lemma BytesOfSome(s: string)
    requires s != ""
    ensures Bytes(s) > 0
  {
  }

  lemma FastIsSeparated(raw: string, p: Pattern, space: char -> bool, out: seq<Part>, k: nat)
    requires OneLine(p) && NoLoneCr(raw)
    requires k + 1 < |out| && Entered(out, raw, Split(p, Normalize(raw)), space, Stretches(Split(p, raw)))
    ensures Separated(raw, out[k], out[k + 1]) && out[k + 1].start == out[k].end + 1
  {
    hide *;
    var pieces, parts := Split(p, raw), Split(p, Normalize(raw));
    EntryAt(out, raw, parts, space, Stretches(pieces), k);
    EntryAt(out, raw, parts, space, Stretches(pieces), k + 1);
    PieceIsPart(p, raw, k);
    SplitLies(p, raw, k);
    LiesFacts(raw, pieces, k);
    SplitLies(p, raw, k + 1);
    LiesFacts(raw, pieces, k + 1);
    StretchOf(pieces, k);
    StretchOf(pieces, k + 1);
    OffsetNext(pieces, k);
    OneBreak();
    var j := Offset(pieces, k) + |pieces[k]|;
    SeparatedBy(raw, out[k], out[k + 1], Offset(pieces, k), j, j + 1, j + 1 + |pieces[k + 1]|);
  }

  lemma OneBreak()
    ensures Normalize([LF]) == [LF] && Bytes([LF]) == 1
  {
  }

  lemma WalkIsSeparated(raw: string, p: Pattern, space: char -> bool, out: seq<Part>, k: nat)
    requires k + 1 < |out|
             && Entered(out, raw, Split(p, Normalize(raw)), space, RawStretches(raw, Split(p, Normalize(raw))))
    ensures Separated(raw, out[k], out[k + 1])
  {
    hide *;
    var norm := Normalize(raw);
    var parts := Split(p, norm);
    EntryAt(out, raw, parts, space, RawStretches(raw, parts), k);
    EntryAt(out, raw, parts, space, RawStretches(raw, parts), k + 1);
    SplitLies(p, norm, k);
    LiesFacts(norm, parts, k);
    RawStretchOf(raw, parts, k);
    RawStretchOf(raw, parts, k + 1);
    OffsetNext(parts, k);
    var j := Offset(parts, k) + |parts[k]|;
    CutNormalizes(raw, j, j + 1);
    RawAtNext(raw, j);
    SeparatedBy(raw, out[k], out[k + 1], RawAt(raw, Offset(parts, k)), RawAt(raw, j), RawAt(raw, j + 1),
                RawAt(raw, Offset(parts, k + 1) + |parts[k + 1]|));
  }

  /**
   Each entry's text and lines are those of text mode, its span gives its text back, neighbours are one line break
   apart.
   */
  ghost predicate Faithful(raw: string, p: Pattern, space: char -> bool, out: seq<Part>) {
    var parts := Split(p, Normalize(raw));
    && |out| == |parts|
    && (forall k :: 0 <= k < |out| ==> Numbered(out[k], parts, k, space))
    && (forall k :: 0 <= k < |out| ==> Intact(raw, out[k], space))
    && forall k :: 0 <= k < |out| - 1 ==> Separated(raw, out[k], out[k + 1])
  }

  function CountCr(raw: string): nat { if raw == "" then 0 else (if raw[0] == CR then 1 else 0) + CountCr(raw[1..]) }

  function CountCrLf(raw: string): nat {
    if |raw| >= 2 && raw[0] == CR && raw[1] == LF then 1 + CountCrLf(raw[2..])
    else if raw == "" then 0 else CountCrLf(raw[1..])
  }

  /** Comparing the two counts tells whether there is a lone carriage return. */
  lemma {:induction false} CountsTell(raw: string)
    ensures CountCrLf(raw) <= CountCr(raw) && (CountCrLf(raw) == CountCr(raw) <==> NoLoneCr(raw))
    decreases |raw|
  {
    if raw != "" {
      var k := Unit(raw);
      var rest := raw[k..];
      CountsTell(rest);
      if k == 2 {
        assert raw[1..] == [LF] + rest && ([LF] + rest)[1..] == rest;
      }
      TailAlone(raw, k);
    }
  }

  lemma TailAlone(raw: string, k: nat)
    requires raw != "" && k == Unit(raw)
    ensures NoLoneCr(raw) <==> NoLoneCr(raw[k..]) && (k == 2 || raw[0] != CR)
  {
    if NoLoneCr(raw[k..]) && (k == 2 || raw[0] != CR) {
      forall i | 0 <= i < |raw| && raw[i] == CR ensures i + 1 < |raw| && raw[i + 1] == LF {
        if i >= k { assert raw[k..][i - k] == CR; }
      }
    }
    if NoLoneCr(raw) {
      forall i | 0 <= i < |raw[k..]| && raw[k..][i] == CR ensures i + 1 < |raw[k..]| && raw[k..][i + 1] == LF {
        assert raw[k + i] == CR;
      }
    }
  }

  /** `parts_with_spans`. */
  method PartsWithSpans(raw: string, p: Pattern, space: char -> bool) returns (out: seq<Part>)
    requires OneLine(p) && IsSpace(space)
    ensures Faithful(raw, p, space, out)
  {
    hide NoLoneCr, Entered, Split, Normalize, Intact, Separated, Numbered, Stretches, RawStretches;
    CountsTell(raw);
    ghost var parts := Split(p, Normalize(raw));
    if CountCr(raw) > 0 && CountCr(raw) != CountCrLf(raw) {
      out := PartsByWalk(raw, p, space);
      forall k | 0 <= k < |out| ensures Intact(raw, out[k], space) { WalkIsIntact(raw, p, space, out, k); }
      forall k | 0 <= k < |out| - 1 ensures Separated(raw, out[k], out[k + 1]) {
        WalkIsSeparated(raw, p, space, out, k);
      }
      EnteredIsNumbered(out, raw, parts, space, RawStretches(raw, parts));
    } else {
      out := PartsFast(raw, p, space);
      forall k | 0 <= k < |out| ensures Intact(raw, out[k], space) { FastIsIntact(raw, p, space, out, k); }
      forall k | 0 <= k < |out| - 1 ensures Separated(raw, out[k], out[k + 1]) {
        FastIsSeparated(raw, p, space, out, k);
      }
      EnteredIsNumbered(out, raw, parts, space, Stretches(Split(p, raw)));
    }
  }

  lemma EnteredIsNumbered(out: seq<Part>, raw: string, parts: seq<string>, space: char -> bool, at: seq<Stretch>)
    requires Entered(out, raw, parts, space, at)
    ensures forall k :: 0 <= k < |out| ==> Numbered(out[k], parts, k, space)
  {
  }

  /** Both paths, wherever both apply, give as many parts with the same texts and lines. */
  method PathsAgree(raw: string, p: Pattern, space: char -> bool) returns (fast: seq<Part>, walk: seq<Part>)
    requires OneLine(p) && NoLoneCr(raw)
    ensures |fast| == |walk| == |Split(p, Normalize(raw))|
    ensures forall k :: 0 <= k < |fast| ==>
              fast[k].text == walk[k].text && fast[k].first == walk[k].first && fast[k].last == walk[k].last
  {
    hide Split, Normalize, Strip, LineAt, Count, Spans, Stretches, RawStretches, NoLoneCr, OneLine;
    fast := PartsFast(raw, p, space);
    walk := PartsByWalk(raw, p, space);
  }

  /** What is claimed of a file's parts determines their texts and lines. */
  lemma FaithfulIsUnique(raw: string, p: Pattern, space: char -> bool, a: seq<Part>, b: seq<Part>)
    requires Faithful(raw, p, space, a) && Faithful(raw, p, space, b)
    ensures |a| == |b|
    ensures forall k :: 0 <= k < |a| ==> a[k].text == b[k].text && a[k].first == b[k].first && a[k].last == b[k].last
  {
    hide Split, Normalize, Strip, LineAt, Count, Lead, Intact, Separated;
  }
}
