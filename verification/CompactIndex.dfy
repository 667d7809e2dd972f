/**
 The generational index of `compact_index.py`: one append-only store seen by many immutable generations, with undo
 of uncommitted appends, postings per cue, masked views, and recall on cue ids.
 */
module CompactIndex {
  import opened Wrappers
  import opened Vocabulary

  datatype Row = Row(identifier: string, source: string, revision: string, supersedes: Option<string>,
      proposition: Option<string>, outcome: string, kind: string)

  /** A stored record: its columns, and its cues as strings. */
  datatype Record = Record(row: Row, cues: seq<string>)

  // ----- postings -----

  /** The rows that carry a cue id, in order. */
  function RowsWithId(cues: seq<seq<nat>>, c: nat): seq<nat> {
    if cues == [] then []
    else RowsWithId(cues[..|cues| - 1], c) + (if c in cues[|cues| - 1] then [|cues| - 1] else [])
  }

  lemma {:induction false} RowsFacts(cues: seq<seq<nat>>, c: nat)
    ensures forall k :: 0 <= k < |RowsWithId(cues, c)| ==>
              RowsWithId(cues, c)[k] < |cues| && c in cues[RowsWithId(cues, c)[k]]
    ensures forall j, k :: 0 <= j < k < |RowsWithId(cues, c)| ==> RowsWithId(cues, c)[j] < RowsWithId(cues, c)[k]
  {
    if cues != [] { RowsFacts(cues[..|cues| - 1], c); }
  }

  lemma RowsUnfold(cues: seq<seq<nat>>, c: nat)
    requires cues != []
    ensures RowsWithId(cues, c)
            == RowsWithId(cues[..|cues| - 1], c) + (if c in cues[|cues| - 1] then [|cues| - 1] else [])
  {
  }

  /** Rows of a prefix come first; the others lie beyond it. */
  lemma {:induction false} RowsOfPrefix(cues: seq<seq<nat>>, n: nat, c: nat)
    requires n <= |cues|
    ensures var part, all := RowsWithId(cues[..n], c), RowsWithId(cues, c);
            |part| <= |all| && all[..|part|] == part && forall k :: |part| <= k < |all| ==> all[k] >= n
    decreases |cues|
  {
    if n < |cues| {
      var init := cues[..|cues| - 1];
      RowsOfPrefix(init, n, c);
      hide RowsWithId;
      RowsUnfold(cues, c);
      assert init[..n] == cues[..n];
    } else {
      assert cues[..n] == cues;
    }
  }

  /** Postings are the sorted inverse of the record-to-cue table; a cue of no record has none. */
  ghost predicate Inverse(postings: map<nat, seq<nat>>, cues: seq<seq<nat>>) {
    forall c: nat :: PostingIs(postings, c, RowsWithId(cues, c))
  }

  ghost predicate PostingIs(postings: map<nat, seq<nat>>, c: nat, rows: seq<nat>) {
    PostingOf(postings, c) == rows && (c in postings ==> postings[c] != [])
  }

  function PostingOf(postings: map<nat, seq<nat>>, c: nat): seq<nat> { if c in postings then postings[c] else [] }

  /** The rows below `row`: `rows[rows < row]`. */
  function Below(rows: seq<nat>, row: nat): seq<nat> {
    if rows == [] then []
       else Below(rows[..|rows| - 1], row) + (if rows[|rows| - 1] < row then [rows[|rows| - 1]] else [])
  }

  lemma {:induction false} AllBelow(rows: seq<nat>, row: nat)
    requires forall k :: 0 <= k < |rows| ==> rows[k] < row
    ensures Below(rows, row) == rows
  {
    if rows != [] { AllBelow(rows[..|rows| - 1], row); }
  }

  /** The row is under the first `i` of its cues. */
  ghost predicate Posted(after: map<nat, seq<nat>>, cues: seq<seq<nat>>, ids: seq<nat>, i: nat, row: nat)
    requires i <= |ids|
  {
    forall c: nat :: PostingIs(after, c, With(RowsWithId(cues, c), c in ids[..i], row))
  }

  function With(rows: seq<nat>, yes: bool, row: nat): seq<nat> { if yes then rows + [row] else rows }

  lemma PostOne(after: map<nat, seq<nat>>, cues: seq<seq<nat>>, ids: seq<nat>, i: nat, row: nat)
    requires i < |ids| && ids[i] !in ids[..i] && Posted(after, cues, ids, i, row)
    ensures Posted(after[ids[i] := PostingOf(after, ids[i]) + [row]], cues, ids, i + 1, row)
  {
    hide RowsWithId;
    var next := after[ids[i] := PostingOf(after, ids[i]) + [row]];
    forall c: nat ensures PostingIs(next, c, With(RowsWithId(cues, c), c in ids[..i + 1], row)) {
      assert PostingIs(after, c, With(RowsWithId(cues, c), c in ids[..i], row));
      OneMoreOf(ids, i, c);
    }
  }

  lemma OneMoreOf(ids: seq<nat>, i: nat, c: nat)
    requires i < |ids|
    ensures c in ids[..i + 1] <==> c in ids[..i] || c == ids[i]
  {
    assert ids[..i + 1] == ids[..i] + [ids[i]];
  }

  lemma StartPosting(postings: map<nat, seq<nat>>, cues: seq<seq<nat>>, ids: seq<nat>, row: nat)
    requires Inverse(postings, cues)
    ensures Posted(postings, cues, ids, 0, row)
  {
    hide RowsWithId;
    forall c: nat ensures PostingIs(postings, c, With(RowsWithId(cues, c), c in ids[..0], row)) {
      assert PostingIs(postings, c, RowsWithId(cues, c));
    }
  }

  lemma NotYet(ids: seq<nat>, i: nat)
    requires i < |ids| && forall j, k :: 0 <= j < k < |ids| ==> ids[j] != ids[k]
    ensures ids[i] !in ids[..i]
  {
  }

  /** Adding one row under each of its cues. */
  method PostRow(postings: map<nat, seq<nat>>, ids: seq<nat>, row: nat, ghost cues: seq<seq<nat>>)
    returns (after: map<nat, seq<nat>>)
    requires Inverse(postings, cues) && row == |cues| && forall i, j :: 0 <= i < j < |ids| ==> ids[i] != ids[j]
    ensures Inverse(after, cues + [ids])
  {
    after := postings;
    StartPosting(after, cues, ids, row);
    hide RowsWithId, Posted, Inverse, PostingIs;
    for i := 0 to |ids|
      invariant Posted(after, cues, ids, i, row)
    {
      NotYet(ids, i);
      PostOne(after, cues, ids, i, row);
      after := after[ids[i] := PostingOf(after, ids[i]) + [row]];
    }
    AllPosted(after, cues, ids, row);
  }

  lemma AllPosted(after: map<nat, seq<nat>>, cues: seq<seq<nat>>, ids: seq<nat>, row: nat)
    requires Posted(after, cues, ids, |ids|, row) && row == |cues|
    ensures Inverse(after, cues + [ids])
  {
    hide RowsWithId, PostingIs;
    assert ids[..|ids|] == ids;
    forall c: nat ensures PostingIs(after, c, RowsWithId(cues + [ids], c)) {
      assert PostingIs(after, c, With(RowsWithId(cues, c), c in ids[..|ids|], row));
      OneMoreRow(cues, ids, c);
    }
  }

  lemma OneMoreRow(cues: seq<seq<nat>>, ids: seq<nat>, c: nat)
    ensures RowsWithId(cues + [ids], c) == With(RowsWithId(cues, c), c in ids, |cues|)
  {
    assert (cues + [ids])[..|cues|] == cues;
  }

  /** The row is off the postings of the first `i` of its cues. */
  ghost predicate Unposted(after: map<nat, seq<nat>>, cues: seq<seq<nat>>, ids: seq<nat>, i: nat, row: nat)
    requires i <= |ids|
  {
    forall c: nat :: PostingIs(after, c, With(RowsWithId(cues, c), c in ids && c !in ids[..i], row))
  }

  function Dropped(postings: map<nat, seq<nat>>, c: nat, row: nat): map<nat, seq<nat>> {
    if c !in postings then postings
    else
      var kept := Below(postings[c], row);
      if kept != [] then postings[c := kept] else postings - {c}
  }

  lemma UnpostOne(after: map<nat, seq<nat>>, cues: seq<seq<nat>>, ids: seq<nat>, i: nat, row: nat)
    requires i < |ids| && row == |cues| && Unposted(after, cues, ids, i, row)
    ensures Unposted(Dropped(after, ids[i], row), cues, ids, i + 1, row)
  {
    hide RowsWithId, Below;
    var next := Dropped(after, ids[i], row);
    forall c: nat ensures PostingIs(next, c, With(RowsWithId(cues, c), c in ids && c !in ids[..i + 1], row)) {
      assert PostingIs(after, c, With(RowsWithId(cues, c), c in ids && c !in ids[..i], row));
      OneMoreOf(ids, i, c);
      if c == ids[i] && c in after { BelowOfRows(cues, c, after[c], row); }
    }
  }

  lemma StartUnposting(postings: map<nat, seq<nat>>, cues: seq<seq<nat>>, ids: seq<nat>, row: nat)
    requires Inverse(postings, cues + [ids]) && row == |cues|
    ensures Unposted(postings, cues, ids, 0, row)
  {
    hide RowsWithId, PostingIs;
    forall c: nat ensures PostingIs(postings, c, With(RowsWithId(cues, c), c in ids && c !in ids[..0], row)) {
      assert PostingIs(postings, c, RowsWithId(cues + [ids], c));
      OneMoreRow(cues, ids, c);
    }
  }

  /** Removing the last row from each of its cues; empty postings disappear. */
  method UnpostRow(postings: map<nat, seq<nat>>, ids: seq<nat>, row: nat, ghost cues: seq<seq<nat>>)
    returns (after: map<nat, seq<nat>>)
    requires row == |cues| && Inverse(postings, cues + [ids])
    ensures Inverse(after, cues)
  {
    after := postings;
    StartUnposting(after, cues, ids, row);
    hide RowsWithId, Below, Unposted, Dropped, Inverse;
    for i := 0 to |ids|
      invariant Unposted(after, cues, ids, i, row)
    {
      UnpostOne(after, cues, ids, i, row);
      after := Dropped(after, ids[i], row);
    }
    AllUnposted(after, cues, ids, row);
  }

  lemma AllUnposted(after: map<nat, seq<nat>>, cues: seq<seq<nat>>, ids: seq<nat>, row: nat)
    requires Unposted(after, cues, ids, |ids|, row)
    ensures Inverse(after, cues)
  {
    hide RowsWithId, PostingIs;
    assert ids[..|ids|] == ids;
    forall c: nat ensures PostingIs(after, c, RowsWithId(cues, c)) {
      assert PostingIs(after, c, With(RowsWithId(cues, c), c in ids && c !in ids[..|ids|], row));
    }
  }

  lemma BelowOfRows(cues: seq<seq<nat>>, c: nat, posting: seq<nat>, row: nat)
    requires row == |cues| && (posting == RowsWithId(cues, c) || posting == RowsWithId(cues, c) + [row])
    ensures Below(posting, row) == RowsWithId(cues, c)
  {
    var rows := RowsWithId(cues, c);
    RowsFacts(cues, c);
    AllBelow(rows, row);
    assert (rows + [row])[..|rows|] == rows;
  }

  // ----- the store's content -----

  function Named(strings: seq<string>, ids: seq<nat>): (cues: seq<string>)
    requires forall k :: 0 <= k < |ids| ==> ids[k] < |strings|
    ensures |cues| == |ids| && forall k :: 0 <= k < |ids| ==> cues[k] == strings[ids[k]]
  {
    seq(|ids|, k requires 0 <= k < |ids| => strings[ids[k]])
  }

  ghost predicate Coded(strings: seq<string>, cues: seq<seq<nat>>) {
    forall r :: 0 <= r < |cues| ==> CodedRow(strings, cues[r])
  }

  ghost predicate CodedRow(strings: seq<string>, ids: seq<nat>) {
    && (forall k :: 0 <= k < |ids| ==> ids[k] < |strings|)
    && forall j, k :: 0 <= j < k < |ids| ==> ids[j] != ids[k]
  }

  ghost function Content(strings: seq<string>, rows: seq<Row>, cues: seq<seq<nat>>): (content: seq<Record>)
    requires |rows| == |cues| && Coded(strings, cues)
    ensures |content| == |rows|
  {
    seq(|rows|, r requires 0 <= r < |rows| => assert CodedRow(strings, cues[r]);
      Record(rows[r], Named(strings, cues[r])))
  }

  /** Rows of the content that carry a cue, by the string itself. */
  ghost function RowsWithCue(content: seq<Record>, cue: string): (rows: seq<nat>) {
    if content == [] then []
    else RowsWithCue(content[..|content| - 1], cue)
         + (if cue in content[|content| - 1].cues then [|content| - 1] else [])
  }

  /** Looking rows up by id or by string is the same, as an id names one string. */
  lemma {:induction false} RowsAgree(strings: seq<string>, rows: seq<Row>, cues: seq<seq<nat>>, c: nat)
    requires |rows| == |cues| && Coded(strings, cues) && Distinct(strings) && c < |strings|
    ensures RowsWithCue(Content(strings, rows, cues), strings[c]) == RowsWithId(cues, c)
  {
    if cues != [] {
      var n := |cues| - 1;
      RowsAgree(strings, rows[..n], cues[..n], c);
      var content := Content(strings, rows, cues);
      assert content[..n] == Content(strings, rows[..n], cues[..n]);
      assert CodedRow(strings, cues[n]);
      NamedIn(strings, cues[n], c);
    }
  }

  lemma NamedIn(strings: seq<string>, ids: seq<nat>, c: nat)
    requires CodedRow(strings, ids) && Distinct(strings) && c < |strings|
    ensures strings[c] in Named(strings, ids) <==> c in ids
  {
    if c in ids {
      var k :| 0 <= k < |ids| && ids[k] == c;
      assert Named(strings, ids)[k] == strings[c];
    }
    if strings[c] in Named(strings, ids) {
      var k :| 0 <= k < |ids| && Named(strings, ids)[k] == strings[c];
      assert ids[k] == c;
    }
  }

  lemma {:induction false} UnknownCueHasNoRows(content: seq<Record>, cue: string)
    requires forall r :: 0 <= r < |content| ==> cue !in content[r].cues
    ensures RowsWithCue(content, cue) == []
  {
    if content != [] { UnknownCueHasNoRows(content[..|content| - 1], cue); }
  }

  // ----- generations -----

  /** What a generation carries besides the shared store: a function of the records it sees. */
  datatype Generation = Generation(count: nat, propositions: map<string, set<string>>, superseded: map<string, string>,
      cueTotal: nat, outcomes: map<string, nat>)

  function CountOf(outcomes: map<string, nat>, outcome: string): nat {
    if outcome in outcomes then outcomes[outcome] else 0
  }

  function Extended(g: Generation, row: Row, cues: nat): Generation {
    Generation(g.count + 1,
               match row.proposition
               case None => g.propositions
               case Some(p) =>
                 if p == "" then g.propositions
                 else g.propositions[p := (if p in g.propositions then g.propositions[p] else {}) + {row.identifier}],
               match row.supersedes case None => g.superseded
                 case Some(earlier) => g.superseded[earlier := row.identifier],
               g.cueTotal + cues,
               g.outcomes[row.outcome := CountOf(g.outcomes, row.outcome) + 1])
  }

  ghost function GenerationOf(content: seq<Record>): (g: Generation)
    ensures g.count == |content|
  {
    if content == [] then Generation(0, map[], map[], 0, map[])
    else
      var last := content[|content| - 1];
      Extended(GenerationOf(content[..|content| - 1]), last.row, |last.cues|)
  }

  predicate Declares(row: Row, p: string, id: string) { row.proposition == Some(p) && row.identifier == id }

  /** A generation's propositions are those its records declare, each with exactly its records. */
  lemma {:induction false} PropositionsAreExact(content: seq<Record>, p: string, id: string)
    ensures (p in GenerationOf(content).propositions && id in GenerationOf(content).propositions[p])
       <==> p != "" && exists r :: 0 <= r < |content| && Declares(content[r].row, p, id)
  {
    if content != [] {
      var init, n := content[..|content| - 1], |content| - 1;
      PropositionsAreExact(init, p, id);
      assert forall r :: 0 <= r < n ==> init[r] == content[r];
      if Declares(content[n].row, p, id) {
        assert Declares(content[n].row, p, id);
      }
    }
  }

  /** The records of one outcome. */
  ghost function WithOutcome(content: seq<Record>, outcome: string): set<nat> {
    set r: nat | r < |content| && content[r].row.outcome == outcome
  }

  lemma ExtendedCounts(g: Generation, row: Row, cues: nat, outcome: string)
    ensures CountOf(Extended(g, row, cues).outcomes, outcome)
         == CountOf(g.outcomes, outcome) + if row.outcome == outcome then 1 else 0
  {
  }

  lemma OneMoreOutcome(content: seq<Record>, record: Record, outcome: string)
    ensures |WithOutcome(content + [record], outcome)|
         == |WithOutcome(content, outcome)| + if record.row.outcome == outcome then 1 else 0
  {
    assert WithOutcome(content + [record], outcome)
           == WithOutcome(content, outcome) + if record.row.outcome == outcome then {|content|} else {};
  }

  /** A generation counts the outcomes of its records exactly. */
  lemma {:induction false} OutcomesAreExact(content: seq<Record>, outcome: string)
    ensures CountOf(GenerationOf(content).outcomes, outcome) == |WithOutcome(content, outcome)|
  {
    hide Extended, CountOf, WithOutcome;
    if content == [] {
      NoOutcomes(outcome);
    } else {
      var init, last := content[..|content| - 1], content[|content| - 1];
      OutcomesAreExact(init, outcome);
      ExtendedCounts(GenerationOf(init), last.row, |last.cues|, outcome);
      OneMoreOutcome(init, last, outcome);
      assert init + [last] == content;
    }
  }

  lemma NoOutcomes(outcome: string)
    ensures CountOf(map[], outcome) == 0 && WithOutcome([], outcome) == {}
  {
  }

  // ----- the shared store -----

  ghost predicate RowIndex(rows: seq<Row>, rowOf: map<string, nat>) {
    && (forall r :: 0 <= r < |rows| ==> rows[r].identifier in rowOf && rowOf[rows[r].identifier] == r)
    && forall id :: id in rowOf ==> rowOf[id] < |rows| && rows[rowOf[id]].identifier == id
  }

  /** More strings at the end change no record. */
  lemma ContentStable(strings: seq<string>, more: seq<string>, rows: seq<Row>, cues: seq<seq<nat>>)
    requires |rows| == |cues| && Coded(strings, cues)
    ensures Coded(strings + more, cues) && Content(strings + more, rows, cues) == Content(strings, rows, cues)
  {
    forall r | 0 <= r < |cues|
      ensures CodedRow(strings + more, cues[r]) && Named(strings + more, cues[r]) == Named(strings, cues[r])
    {
      assert CodedRow(strings, cues[r]);
    }
  }

  lemma ContentSnoc(strings: seq<string>, rows: seq<Row>, cues: seq<seq<nat>>, row: Row, ids: seq<nat>)
    requires |rows| == |cues| && Coded(strings, cues) && CodedRow(strings, ids)
    ensures Coded(strings, cues + [ids])
    ensures Content(strings, rows + [row], cues + [ids])
            == Content(strings, rows, cues) + [Record(row, Named(strings, ids))]
  {
  }

  /** The cues not found yet, in order; `place[k]` counts those before cue `k`. */
  ghost predicate Missing(strings: seq<string>, cues: seq<string>, found: seq<Option<nat>>, place: seq<nat>,
      added: seq<string>)
  {
    && |found| <= |cues| && |place| == |found| + 1 && place[0] == 0 && place[|found|] == |added|
    && (forall k :: 0 <= k < |found| ==> MissingAt(strings, cues, found, place, added, k))
    && NewOnes(strings, cues, |found|, added)
  }

  ghost predicate NewOnes(strings: seq<string>, cues: seq<string>, k: nat, added: seq<string>)
    requires k <= |cues|
  {
    && (forall j :: 0 <= j < |added| ==> added[j] !in strings && added[j] in cues[..k])
    && Distinct(added)
  }

  lemma NewOnesStep(strings: seq<string>, cues: seq<string>, k: nat, added: seq<string>)
    requires k < |cues| && NewOnes(strings, cues, k, added) && Distinct(cues)
    ensures NewOnes(strings, cues, k + 1, added)
    ensures cues[k] !in strings ==> NewOnes(strings, cues, k + 1, added + [cues[k]])
  {
    NotAmong(cues, k);
    assert cues[..k + 1] == cues[..k] + [cues[k]];
  }

  ghost predicate MissingAt(strings: seq<string>, cues: seq<string>, found: seq<Option<nat>>, place: seq<nat>,
      added: seq<string>, k: nat)
    requires k < |cues| && k < |found| && k + 1 < |place|
  {
    MissingOne(strings, cues[k], found[k], place[k], place[k + 1], added)
  }

  ghost predicate MissingOne(strings: seq<string>, cue: string, found: Option<nat>, place: nat, next: nat,
      added: seq<string>)
  {
    match found
    case Some(id) => id < |strings| && strings[id] == cue && next == place
    case None => place < |added| && added[place] == cue && next == place + 1
  }

  lemma MissingGrows(strings: seq<string>, cue: string, found: Option<nat>, place: nat, next: nat, added: seq<string>,
      one: string)
    requires MissingOne(strings, cue, found, place, next, added)
    ensures MissingOne(strings, cue, found, place, next, added + [one])
  {
  }

  lemma MissingLast(strings: seq<string>, cue: string, f: Option<nat>, added: seq<string>)
    requires match f case Some(id) => id < |strings| && strings[id] == cue case None => true
    ensures var more := if f == None then added + [cue] else added;
            MissingOne(strings, cue, f, |added|, |more|, more)
  {
  }

  lemma MissingStep(strings: seq<string>, cues: seq<string>, found: seq<Option<nat>>, place: seq<nat>,
      added: seq<string>, f: Option<nat>)
    requires Missing(strings, cues, found, place, added) && |found| < |cues| && Distinct(cues)
    requires match f case Some(id) => id < |strings| && strings[id] == cues[|found|]
             case None => cues[|found|] !in strings
    ensures var more := if f == None then added + [cues[|found|]] else added;
            Missing(strings, cues, found + [f], place + [|more|], more)
  {
    hide NewOnes, Distinct, MissingOne;
    var k := |found|;
    var more := if f == None then added + [cues[k]] else added;
    NewOnesStep(strings, cues, k, added);
    MissingLast(strings, cues[k], f, added);
    forall i | 0 <= i <= k ensures MissingAt(strings, cues, found + [f], place + [|more|], more, i) {
      if i < k {
        assert MissingAt(strings, cues, found, place, added, i);
        MissingGrows(strings, cues[i], found[i], place[i], place[i + 1], added, cues[k]);
      }
    }
  }

  lemma NotAmong(cues: seq<string>, k: nat)
    requires Distinct(cues) && k < |cues|
    ensures cues[k] !in cues[..k]
  {
  }

  /** Which cues the vocabulary already knows. */
  method FindCues(vocab: Vocab, cues: seq<string>)
    returns (found: seq<Option<nat>>, added: seq<string>, ghost place: seq<nat>)
    requires vocab.Valid() && Distinct(cues)
    ensures |found| == |cues| && Missing(vocab.Strings(), cues, found, place, added)
  {
    hide Vocab.Strings, Vocab.Valid;
    found, added, place := [], [], [0];
    for k := 0 to |cues|
      invariant |found| == k && Missing(vocab.Strings(), cues, found, place, added)
    {
      var f := vocab.IdOf(cues[k], None);
      MissingStep(vocab.Strings(), cues, found, place, added, f);
      found := found + [f];
      if f == None { added := added + [cues[k]]; }
      place := place + [|added|];
    }
  }

  /** New ids take the places of the cues that were not found. */
  method FillIds(ghost strings: seq<string>, cues: seq<string>, found: seq<Option<nat>>, newIds: seq<nat>,
      ghost place: seq<nat>, ghost added: seq<string>)
    returns (ids: seq<nat>)
    requires |found| == |cues| && Missing(strings, cues, found, place, added)
    requires |newIds| == |added| && forall i :: 0 <= i < |newIds| ==> newIds[i] == |strings| + i
    ensures |ids| == |cues|
            && forall i :: 0 <= i < |ids| ==> ids[i] < |strings + added| && (strings + added)[ids[i]] == cues[i]
  {
    hide Distinct;
    ids := [];
    var next := 0;
    for k := 0 to |cues|
      invariant |ids| == k && next == place[k]
      invariant forall i :: 0 <= i < k ==> ids[i] < |strings + added| && (strings + added)[ids[i]] == cues[i]
    {
      assert MissingAt(strings, cues, found, place, added, k);
      match found[k]
      case None =>
        ids := ids + [newIds[next]];
        next := next + 1;
      case Some(id) => ids := ids + [id];
    }
  }

  lemma NamesBack(strings: seq<string>, cues: seq<string>, ids: seq<nat>)
    requires Distinct(cues) && |ids| == |cues|
             && forall i :: 0 <= i < |ids| ==> ids[i] < |strings| && strings[ids[i]] == cues[i]
    ensures CodedRow(strings, ids) && Named(strings, ids) == cues
  {
  }

  lemma FreshIsDistinct(strings: seq<string>, cues: seq<string>, found: seq<Option<nat>>, place: seq<nat>,
      added: seq<string>)
    requires Distinct(strings) && |found| == |cues| && Missing(strings, cues, found, place, added)
    ensures Distinct(strings + added) && forall j :: 0 <= j < |added| ==> added[j] in cues
  {
    assert cues[..|found|] == cues;
  }

  /** The ids of a record's cues; unknown cues enter the vocabulary in order. */
  method CodeCues(vocab: Vocab, cues: seq<string>) returns (ids: seq<nat>)
    requires vocab.Valid() && Distinct(cues) && forall k :: 0 <= k < |cues| ==> Plain(cues[k])
    modifies vocab
    ensures vocab.Valid() && old(|vocab.Strings()|) <= |vocab.Strings()|
    ensures vocab.Strings()[..old(|vocab.Strings()|)] == old(vocab.Strings())
    ensures CodedRow(vocab.Strings(), ids) && Named(vocab.Strings(), ids) == cues
  {
    ValidIsDistinct(vocab);
    hide Vocab.Strings, Vocab.Valid, Missing, CodedRow, Named, Distinct;
    ghost var strings := vocab.Strings();
    var found, added;
    ghost var place;
    found, added, place := FindCues(vocab, cues);
    FreshIsDistinct(strings, cues, found, place, added);
    var newIds := vocab.Add(added);
    ids := FillIds(strings, cues, found, newIds, place, added);
    NamesBack(strings + added, cues, ids);
  }

  lemma ValidIsDistinct(vocab: Vocab)
    requires vocab.Valid()
    ensures Distinct(vocab.Strings())
  {
  }

  /** The cues of a record: its terms, its proposition, or else its source, and its own identifier. */
  function CuesOf(row: Row, terms: seq<string>, normal: string -> string): (cues: seq<string>)
    ensures cues != [] && Distinct(cues) && row.identifier in cues
  {
    var declared := match row.proposition
                    case None => Unique(terms)
                    case Some(p) => Unique(terms) + [normal("proposition:" + p)];
    var all := if declared == [] then [normal("source:" + row.source)] else declared;
    assert row.identifier in all + [row.identifier];
    Unique(all + [row.identifier])
  }

  lemma NamedIsPlain(row: Row, terms: seq<string>, normal: string -> string)
    requires Plain(row.identifier) && (forall k :: 0 <= k < |terms| ==> Plain(terms[k]))
             && forall text :: Plain(normal(text))
    ensures forall k :: 0 <= k < |CuesOf(row, terms, normal)| ==> Plain(CuesOf(row, terms, normal)[k])
  {
    hide Plain;
    forall k | 0 <= k < |CuesOf(row, terms, normal)| ensures Plain(CuesOf(row, terms, normal)[k]) {
      var cue := CuesOf(row, terms, normal)[k];
      assert cue in CuesOf(row, terms, normal);
      if cue in terms { var j :| 0 <= j < |terms| && terms[j] == cue; }
    }
  }

  /** A generation of these records: it sees a prefix of them, and all it carries comes from that prefix. */
  ghost predicate SeenIn(content: seq<Record>, g: Generation) {
    g.count <= |content| && g == GenerationOf(content[..g.count])
  }

  /** A generation is seen in exactly the record sequences that agree on its prefix. */
  lemma SeenAlike(a: seq<Record>, b: seq<Record>, n: nat)
    requires n <= |a| && n <= |b| && a[..n] == b[..n]
    ensures forall g: Generation :: g.count <= n ==> (SeenIn(a, g) <==> SeenIn(b, g))
  {
    hide GenerationOf;
    forall g: Generation | g.count <= n ensures SeenIn(a, g) <==> SeenIn(b, g) {
      assert a[..n][..g.count] == a[..g.count] && b[..n][..g.count] == b[..g.count];
    }
  }

  lemma SeenInside(content: seq<Record>)
    ensures forall g: Generation :: SeenIn(content, g) ==> g.count <= |content|
  {
  }

  // ----- the kept kind mask -----

  datatype KindMask = KindMask(count: nat, exclude: seq<string>, mask: seq<bool>)

  /** The kept mask, if any, is right for the records that are there. */
  ghost predicate FreshIn(content: seq<Record>, kept: Option<KindMask>) {
    kept.Some? ==>
        kept.value.count <= |content| && kept.value.mask == KindsShown(content, kept.value.count, kept.value.exclude)
  }

  lemma FreshAlike(a: seq<Record>, b: seq<Record>, n: nat, kept: Option<KindMask>)
    requires n <= |a| && n <= |b| && a[..n] == b[..n] && FreshIn(a, kept) && (kept.Some? ==> kept.value.count <= n)
    ensures FreshIn(b, kept)
  {
    if kept.Some? {
      var count, exclude := kept.value.count, kept.value.exclude;
      forall r | 0 <= r < count ensures KindsShown(a, count, exclude)[r] == KindsShown(b, count, exclude)[r] {
        assert a[..n][r] == b[..n][r];
      }
    }
  }

  lemma FreshInside(content: seq<Record>, kept: Option<KindMask>)
    requires FreshIn(content, kept)
    ensures kept.Some? ==> kept.value.count <= |content|
  {
  }

  /** Which of the first `count` rows are of no excluded kind. */
  ghost function KindsShown(content: seq<Record>, count: nat, exclude: seq<string>): (mask: seq<bool>)
    ensures |mask| == count
  {
    seq(count, r requires 0 <= r < count => r >= |content| || content[r].row.kind !in exclude)
  }

  /** The masked view shows exactly the rows the view shows that are of no excluded kind. */
  ghost predicate HidesKinds(masked: View, v: View, content: seq<Record>, exclude: seq<string>)
    requires v.g.count <= |content|
  {
    masked.g == v.g
      && forall r :: 0 <= r < v.g.count ==> (Shows(masked, r) <==> Shows(v, r) && content[r].row.kind !in exclude)
  }

  /** On the rows the view shows, the mask hides the excluded kinds and no others. */
  ghost predicate Agrees(mask: seq<bool>, v: View, content: seq<Record>, exclude: seq<string>)
    requires v.g.count <= |content|
  {
    forall r :: 0 <= r < v.g.count && Shows(v, r) ==> ((r < |mask| ==> mask[r]) <==> content[r].row.kind !in exclude)
  }

  lemma MaskShows(v: View, mask: seq<bool>, content: seq<Record>, exclude: seq<string>)
    requires MaskFits(v) && v.g.count <= |content|
    ensures MaskFits(MaskedRows(v, mask)) && MaskedRows(v, mask).g == v.g
    ensures HidesKinds(MaskedRows(v, mask), v, content, exclude) <==> Agrees(mask, v, content, exclude)
    ensures mask == KindsShown(content, v.g.count, exclude) ==> Agrees(mask, v, content, exclude)
  {
    hide MaskedRows, Shows;
    MaskedFits(v, mask);
    forall r | 0 <= r < v.g.count ensures Shows(MaskedRows(v, mask), r) <==> Shows(v, r) && (r < |mask| ==> mask[r]) {
      MasksIntersect(v, mask, r);
    }
  }

  lemma PlainView(v: View, content: seq<Record>)
    requires v.g.count <= |content|
    ensures HidesKinds(v, v, content, [])
  {
  }

  lemma MaskedFits(v: View, mask: seq<bool>)
    requires MaskFits(v)
    ensures MaskFits(MaskedRows(v, mask)) && MaskedRows(v, mask).g == v.g
  {
  }

  lemma ContentRows(strings: seq<string>, rows: seq<Row>, cues: seq<seq<nat>>)
    requires |rows| == |cues| && Coded(strings, cues)
    ensures forall r :: 0 <= r < |rows| ==> Content(strings, rows, cues)[r].row == rows[r]
  {
  }

  datatype Appending = Appended(next: Generation) | Known | UnknownRecord | InvalidSuccessor | NotTheHead

  ghost predicate Holds(content: seq<Record>, n: nat, id: string) {
    exists r :: 0 <= r < n && r < |content| && content[r].row.identifier == id
  }

  /** Some record of the name is not a predecessor the row may have. */
  ghost predicate Unfit(content: seq<Record>, g: Generation, earlier: string, row: Row) {
    exists r :: 0 <= r < |content| && content[r].row.identifier == earlier && !Succeeds(g, content[r].row, row)
  }

  /** Why a record may not be appended to this generation, on the records. */
  ghost function RefusalOf(content: seq<Record>, g: Generation, row: Row): Option<Appending> {
    if Holds(content, g.count, row.identifier) then Some(Known)
    else if row.supersedes.Some? && !Holds(content, g.count, row.supersedes.value) then Some(UnknownRecord)
    else if row.supersedes.Some? && Unfit(content, g, row.supersedes.value, row) then Some(InvalidSuccessor)
    else if |content| != g.count then Some(NotTheHead)
    else None
  }

  lemma RefusalAgrees(store: Store, g: Generation, row: Row)
    requires store.Valid()
    ensures store.Refused(g, row) == RefusalOf(store.Records(), g, row)
  {
    hide Vocab.Valid, Vocab.Strings, Inverse, Coded, Content, Succeeds;
    ContentRows(store.vocab.Strings(), store.rows, store.cues);
    RowsAreRecords(store);
    IndexHolds(store, g.count, row.identifier);
    if row.supersedes.Some? {
      IndexHolds(store, g.count, row.supersedes.value);
      if row.supersedes.value in store.rowOf {
        var r := store.rowOf[row.supersedes.value];
        assert store.Records()[r].row.identifier == row.supersedes.value;
        forall s | 0 <= s < |store.rows| && store.rows[s].identifier == row.supersedes.value ensures s == r {}
      }
    }
  }

  lemma RefusalMeans(content: seq<Record>, g: Generation, row: Row)
    ensures RefusalOf(content, g, row) == None ==> |content| == g.count
    ensures RefusalOf(content, g, row).Some? ==> !RefusalOf(content, g, row).value.Appended?
  {
    hide Holds, Unfit;
  }

  lemma IndexHolds(store: Store, n: nat, id: string)
    requires store.Valid()
    ensures Holds(store.Records(), n, id) <==> id in store.rowOf && store.rowOf[id] < n
  {
    hide Vocab.Valid, Vocab.Strings, Inverse, Coded, Content;
    ContentRows(store.vocab.Strings(), store.rows, store.cues);
    RowsAreRecords(store);
    if id in store.rowOf && store.rowOf[id] < n {
      assert store.Records()[store.rowOf[id]].row.identifier == id;
    }
    if Holds(store.Records(), n, id) {
      var r :| 0 <= r < n && r < |store.Records()| && store.Records()[r].row.identifier == id;
      assert store.rows[r].identifier == id;
    }
  }

  /** One more record: all that was seen is seen, and the kept mask is as right as it was. */
  lemma MoreIsStable(content: seq<Record>, record: Record, kept: Option<KindMask>)
    ensures forall g :: SeenIn(content, g) ==> SeenIn(content + [record], g)
    ensures FreshIn(content, kept) ==> FreshIn(content + [record], kept)
  {
    hide SeenIn, FreshIn;
    var n := |content|;
    assert (content + [record])[..n] == content[..n];
    SeenAlike(content, content + [record], n);
    SeenInside(content);
    if FreshIn(content, kept) {
      FreshInside(content, kept);
      FreshAlike(content, content + [record], n, kept);
    }
  }

  /** Fewer records: generations they reach are still seen, and a mask within them is as right as it was. */
  lemma PrefixIsStable(content: seq<Record>, n: nat, kept: Option<KindMask>)
    requires n <= |content|
    ensures forall g: Generation :: SeenIn(content, g) && g.count <= n ==> SeenIn(content[..n], g)
    ensures FreshIn(content, kept) && (kept.Some? ==> kept.value.count <= n) ==> FreshIn(content[..n], kept)
  {
    hide SeenIn, FreshIn;
    assert content[..n][..n] == content[..n];
    SeenAlike(content, content[..n], n);
    if FreshIn(content, kept) && (kept.Some? ==> kept.value.count <= n) { FreshAlike(content, content[..n], n, kept); }
  }

  class Store {
    const vocab: Vocab
    var rowOf: map<string, nat>
    var cues: seq<seq<nat>>
    var postings: map<nat, seq<nat>>
    var rows: seq<Row>
    /** The one mask that is kept, with the count and the kinds it was built for. */
    var kindMask: Option<KindMask>
    /** `_cue`, the normalization of a cue. */
    const normal: string -> string

    ghost predicate Valid() reads this, vocab {
      && vocab.Valid() && |rows| == |cues| && Coded(vocab.Strings(), cues) && Inverse(postings, cues)
         && RowIndex(rows, rowOf)
      && (forall r :: 0 <= r < |cues| ==> cues[r] != [])
      && (forall text :: Plain(normal(text))) && (kindMask.Some? ==> |kindMask.value.mask| == kindMask.value.count)
    }

    ghost function Records(): seq<Record> reads this`rows, this`cues, vocab {
      if |rows| == |cues| && Coded(vocab.Strings(), cues) then Content(vocab.Strings(), rows, cues) else []
    }

    /** A generation of this store: it sees a prefix of the records, and all it carries comes from them. */
    ghost predicate Sees(g: Generation) reads this`rows, this`cues, vocab {
      SeenIn(Records(), g)
    }

    constructor (hash: string -> nat, normal: string -> string)
      requires forall text :: Plain(normal(text))
      ensures Valid() && Records() == [] && fresh(vocab) && kindMask == None && MaskFresh() && this.normal == normal
    {
      vocab := new Vocab(hash);
      rowOf, cues, postings, rows, kindMask := map[], [], map[], [], None;
      this.normal := normal;
    }

    /** Why a record may not be appended to this generation, if so. */
    function Refused(g: Generation, row: Row): Option<Appending> reads this {
      if row.identifier in rowOf && rowOf[row.identifier] < g.count then Some(Known)
      else if row.supersedes.Some? && (row.supersedes.value !in rowOf || rowOf[row.supersedes.value] >= g.count)
           then Some(UnknownRecord)
      else if row.supersedes.Some? && rowOf[row.supersedes.value] < |rows|
           && !Succeeds(g, rows[rowOf[row.supersedes.value]], row)
           then Some(InvalidSuccessor)
      else if |rows| != g.count then Some(NotTheHead)
      else None
    }

    /**
     `append`: the record joins the shared store under its cues and a new generation sees it; `terms` are the
     normalized keys and given cues of the row. Every generation seen before is seen still.
     */
    method Append(g: Generation, row: Row, terms: seq<string>) returns (result: Appending)
      requires Valid() && Sees(g) && Plain(row.identifier) && forall k :: 0 <= k < |terms| ==> Plain(terms[k])
      modifies this`rowOf, this`cues, this`postings, this`rows, vocab
      ensures Valid() && forall h :: old(Sees(h)) ==> Sees(h)
      ensures match old(Refused(g, row))
              case Some(refusal) => result == refusal && Records() == old(Records())
              case None =>
                var named := CuesOf(row, terms, normal);
                && Records() == old(Records()) + [Record(row, named)]
                && result == Appended(Extended(g, row, |named|)) && Sees(result.next)
      ensures old(MaskFresh()) ==> MaskFresh()
    {
      hide Vocab.Valid, Vocab.Strings, SeenIn, FreshIn, CuesOf, Inverse, Distinct, Content, Coded, CodedRow, Named,
           Extended;
      var named := CuesOf(row, terms, normal);
      NamedIsPlain(row, terms, normal);
      SeenInside(Records());
      var refusal := Refused(g, row);
      if refusal.Some? { return refusal.value; }
      ghost var before, strings := Records(), vocab.Strings();
      var ids := CodeCues(vocab, named);
      CodedIsDistinct(vocab.Strings(), ids);
      StringsGrew(strings, vocab.Strings());
      ContentStable(strings, vocab.Strings()[|strings|..], rows, cues);
      ContentSnoc(vocab.Strings(), rows, cues, row, ids);
      postings := PostRow(postings, ids, |rows|, cues);
      rowOf := rowOf[row.identifier := |rows|];
      cues := cues + [ids];
      rows := rows + [row];
      result := Appended(Extended(g, row, |ids|));
      NextGeneration(before, g, Record(row, named));
      MoreIsStable(before, Record(row, named), kindMask);
    }

    /** One record off the end, with its postings. */
    method DropLast()
      requires Valid() && rows != []
      modifies this`rowOf, this`cues, this`postings, this`rows
      ensures Valid() && |rows| == old(|rows|) - 1 && |Records()| == |rows| && old(|Records()|) == old(|rows|)
      ensures Records() == old(Records())[..|rows|]
    {
      hide Vocab.Valid, Vocab.Strings, Inverse, Coded, Content;
      var row := |rows| - 1;
      ContentInit(vocab.Strings(), rows, cues);
      assert cues == cues[..row] + [cues[row]];
      rowOf := rowOf - {rows[row].identifier};
      rows := rows[..row];
      postings := UnpostRow(postings, cues[row], row, cues[..row]);
      cues := cues[..row];
    }

    /** `truncate_to`: appends beyond `count` are undone; the vocabulary keeps their cues. */
    method TruncateTo(count: nat)
      requires Valid()
      modifies this`rowOf, this`cues, this`postings, this`rows
      ensures Valid() && forall h :: old(Sees(h)) && h.count <= count ==> Sees(h)
      ensures Records() == if count < |old(Records())| then old(Records())[..count] else old(Records())
      ensures old(MaskFresh()) && (kindMask.Some? ==> kindMask.value.count <= count) ==> MaskFresh()
    {
      hide SeenIn, FreshIn, Valid;
      ghost var before := Records();
      RowsAreRecords(this);
      while |rows| > count
        invariant Valid() && |Records()| == |rows| <= |before| && Records() == before[..|rows|]
        invariant |rows| >= count || |rows| == |before|
        decreases |rows|
      {
        DropLast();
      }
      PrefixIsStable(before, |Records()|, kindMask);
    }

    /** `masked`: the view without the rows of the excluded kinds, by the last mask built when its key fits. */
    method Masked(v: View, exclude: seq<string>) returns (masked: View)
      requires Valid() && v.g.count <= |Records()| && MaskFits(v)
      modifies this`kindMask
      ensures Valid() && MaskFits(masked) && masked.g == v.g && (exclude == [] ==> masked == v)
      ensures exclude != [] ==>
                (HidesKinds(masked, v, Records(), exclude) <==>
                 (old(Hits(v, exclude)) ==> Agrees(old(kindMask).value.mask, v, Records(), exclude)))
      ensures kindMask == if exclude == [] || old(Hits(v, exclude)) then old(kindMask)
                          else Some(KindMask(v.g.count, exclude, KindsShown(Records(), v.g.count, exclude)))
      ensures old(MaskFresh()) ==> MaskFresh() && HidesKinds(masked, v, Records(), exclude)
    {
      hide Vocab.Valid, Vocab.Strings, Inverse, Coded, Content, Agrees, HidesKinds;
      if exclude == [] { PlainView(v, Records()); return v; }
      ghost var content := Records();
      ContentRows(vocab.Strings(), rows, cues);
      if !Hits(v, exclude) {
        var columns, count := rows, v.g.count;
        kindMask := Some(KindMask(count, exclude,
                        seq(count, r requires 0 <= r < count => r >= |columns| || columns[r].kind !in exclude)));
        assert kindMask.value.mask == KindsShown(content, v.g.count, exclude);
      }
      masked := MaskedRows(v, kindMask.value.mask);
      MaskShows(v, kindMask.value.mask, content, exclude);
    }

    /** Does the cached mask have the key asked for? */
    predicate Hits(v: View, exclude: seq<string>) reads this {
      kindMask.Some? && kindMask.value.count == v.g.count && kindMask.value.exclude == exclude
    }

    /** The cached mask was built from rows that are still there. */
    ghost predicate MaskFresh() reads this, vocab {
      FreshIn(Records(), kindMask)
    }

    /** `rows_for_cue`, on a view: the visible rows that carry the cue. */
    method RowsForCue(v: View, cue: string) returns (found: seq<nat>)
      requires Valid() && v.g.count <= |Records()| && MaskFits(v)
      ensures found == Allowed(RowsWithCue(Records()[..v.g.count], cue), v)
    {
      hide Vocab.Valid, Vocab.Strings, Inverse, Coded, Content, RowsWithCue, RowsWithId, Distinct;
      ValidIsDistinct(vocab);
      var id := vocab.IdOf(cue, None);
      if id == None {
        NoSuchCue(vocab.Strings(), rows, cues, v.g.count, cue);
        return [];
      }
      LookUp(vocab.Strings(), rows, cues, postings, v.g.count, id.value);
      var posting := PostingOf(postings, id.value);
      var k := VisiblePart(posting, v.g.count);
      found := Allowed(posting[..k], v);
    }

    /** The rows a recall considers. */
    method WantedRows(v: View, wanted: seq<string>) returns (found: set<nat>)
      requires Valid() && v.g.count <= |Records()| && MaskFits(v)
      ensures forall r :: r in found <==> IsRecalled(Records(), v, wanted, r)
    {
      hide *;
      found := {};
      NothingWanted(Records(), v, wanted);
      for k := 0 to |wanted|
        invariant forall r :: r in found <==> IsRecalled(Records(), v, wanted[..k], r)
      {
        var more := RowsForCue(v, wanted[k]);
        WantedMore(Records(), v, wanted, k, more);
        found := found + (set r | r in more);
      }
      assert wanted[..|wanted|] == wanted;
    }

    /** `recall_candidates`: on cue ids, what the definition says on strings. */
    method RecallCandidates(v: View, matched: seq<string>, current: seq<string>, navigation: seq<string>)
      returns (candidates: seq<Candidate>)
      requires Valid() && v.g.count <= |Records()| && MaskFits(v)
      ensures Gathered(Records(), v, Unique(matched + Unique(navigation)), Unique(current + Unique(navigation)),
                v.g.count, candidates)
    {
      hide Vocab.Valid, Vocab.Strings, Inverse, RowsWithCue, Gathered, Shows, Translates, IsRecalled, RowIndex,
           Distinct, Content;
      ValidIsDistinct(vocab);
      var nav := Unique(navigation);
      var now, wanted := Unique(current + nav), Unique(matched + nav);
      var names := TranslateCues(vocab, now);
      var found := WantedRows(v, wanted);
      candidates := [];
      NothingGathered(Records(), v, wanted, now);
      IdentifiersDiffer(vocab.Strings(), rows, cues, rowOf);
      for r := 0 to v.g.count
        invariant Gathered(Records(), v, wanted, now, r, candidates)
      {
        GatherMore(Records(), v, wanted, now, r, candidates);
        if r in found {
          RowOfContent(vocab.Strings(), rows, cues, r);
          var c := BuildCandidate(cues[r], rows[r], names, now, vocab.Strings());
          candidates := Place(candidates, c);
        }
      }
    }
  }

  lemma NothingWanted(content: seq<Record>, v: View, wanted: seq<string>)
    ensures forall r :: !IsRecalled(content, v, wanted[..0], r)
  {
  }

  lemma RowOfContent(strings: seq<string>, rows: seq<Row>, cues: seq<seq<nat>>, r: nat)
    requires |rows| == |cues| && Coded(strings, cues) && r < |rows|
    ensures CodedRow(strings, cues[r]) && Content(strings, rows, cues)[r] == Record(rows[r], Named(strings, cues[r]))
  {
  }

  lemma NothingGathered(content: seq<Record>, v: View, wanted: seq<string>, current: seq<string>)
    ensures Gathered(content, v, wanted, current, 0, [])
  {
  }

  lemma IdentifiersDiffer(strings: seq<string>, rows: seq<Row>, cues: seq<seq<nat>>, rowOf: map<string, nat>)
    requires |rows| == |cues| && Coded(strings, cues) && RowIndex(rows, rowOf)
    ensures var content := Content(strings, rows, cues);
            forall i, j :: 0 <= i < j < |content| ==> content[i].row.identifier != content[j].row.identifier
  {
  }

  lemma WantedMore(content: seq<Record>, v: View, wanted: seq<string>, k: nat, more: seq<nat>)
    requires k < |wanted| && v.g.count <= |content| && more == Allowed(RowsWithCue(content[..v.g.count], wanted[k]), v)
    ensures forall r :: IsRecalled(content, v, wanted[..k + 1], r) <==>
              IsRecalled(content, v, wanted[..k], r) || r in more
  {
    hide RowsWithCue, Allowed, Shows;
    assert wanted[..k + 1] == wanted[..k] + [wanted[k]];
    forall r: nat
      ensures IsRecalled(content, v, wanted[..k + 1], r) <==> IsRecalled(content, v, wanted[..k], r) || r in more
    {
      AllowedMembers(RowsWithCue(content[..v.g.count], wanted[k]), v, r);
      RowsWithCueMembers(content[..v.g.count], wanted[k], r);
    }
  }

  ghost predicate IsPart(posting: seq<nat>, count: nat, k: nat) {
    && k <= |posting| && (forall i :: 0 <= i < k ==> posting[i] < count)
    && forall i :: k <= i < |posting| ==> posting[i] >= count
  }

  lemma PartIsUnique(posting: seq<nat>, count: nat, j: nat, k: nat)
    requires IsPart(posting, count, j) && IsPart(posting, count, k)
    ensures j == k
  {
    var i := if j < k then j else k;
    assert i < |posting| ==> (posting[i] < count <==> i < j) && (posting[i] < count <==> i < k);
  }

  /** How many rows of a posting a generation sees. */
  method VisiblePart(posting: seq<nat>, count: nat) returns (k: nat)
    requires forall i, j :: 0 <= i < j < |posting| ==> posting[i] < posting[j]
    ensures IsPart(posting, count, k)
  {
    k := 0;
    var high := |posting|;
    while k < high
      invariant k <= high <= |posting|
      invariant (forall i :: 0 <= i < k ==> posting[i] < count)
                && forall i :: high <= i < |posting| ==> posting[i] >= count
    {
      var mid := (k + high) / 2;
      if posting[mid] < count { k := mid + 1; } else { high := mid; }
    }
  }

  lemma ContentInit(strings: seq<string>, rows: seq<Row>, cues: seq<seq<nat>>)
    requires |rows| == |cues| && Coded(strings, cues) && cues != []
    ensures Coded(strings, cues[..|cues| - 1])
    ensures Content(strings, rows[..|rows| - 1], cues[..|cues| - 1]) == Content(strings, rows, cues)[..|rows| - 1]
  {
    hide CodedRow, Named;
  }

  /** A cue that is not in the vocabulary is in no record. */
  lemma NoSuchCue(strings: seq<string>, rows: seq<Row>, cues: seq<seq<nat>>, n: nat, cue: string)
    requires |rows| == |cues| && Coded(strings, cues) && n <= |rows| && cue !in strings
    ensures RowsWithCue(Content(strings, rows, cues)[..n], cue) == []
  {
    var content := Content(strings, rows, cues)[..n];
    forall r | 0 <= r < |content| ensures cue !in content[r].cues {
      assert CodedRow(strings, cues[r]);
    }
    UnknownCueHasNoRows(content, cue);
  }

  /** The visible part of a posting is the answer for the cue's string. */
  lemma LookUp(strings: seq<string>, rows: seq<Row>, cues: seq<seq<nat>>, postings: map<nat, seq<nat>>, n: nat, c: nat)
    requires |rows| == |cues| && Coded(strings, cues) && Distinct(strings) && n <= |rows| && c < |strings|
             && Inverse(postings, cues)
    ensures var posting := PostingOf(postings, c);
            && (forall i, j :: 0 <= i < j < |posting| ==> posting[i] < posting[j])
            && forall k: nat :: IsPart(posting, n, k) ==>
                 posting[..k] == RowsWithCue(Content(strings, rows, cues)[..n], strings[c])
  {
    var posting := PostingOf(postings, c);
    assert PostingIs(postings, c, RowsWithId(cues, c));
    RowsFacts(cues, c);
    RowsFacts(cues[..n], c);
    RowsOfPrefix(cues, n, c);
    RowsAgree(strings, rows[..n], cues[..n], c);
    assert Content(strings, rows, cues)[..n] == Content(strings, rows[..n], cues[..n]);
    var part := RowsWithId(cues[..n], c);
    forall i | 0 <= i < |part| ensures posting[i] < n { assert posting[..|part|][i] == part[i]; }
    forall k: nat | IsPart(posting, n, k) ensures posting[..k] == part { PartIsUnique(posting, n, k, |part|); }
  }

  // ----- masked views -----

  /** A generation, and the rows its postings show; a mask is at least as long as the generation. */
  datatype View = View(g: Generation, mask: Option<seq<bool>>)

  ghost predicate MaskFits(v: View) { v.mask.Some? ==> |v.mask.value| >= v.g.count }

  predicate Shows(v: View, r: nat) { v.mask.Some? && r < |v.mask.value| ==> v.mask.value[r] }

  function Allowed(rows: seq<nat>, v: View): seq<nat> {
    if rows == [] then []
    else Allowed(rows[..|rows| - 1], v) + (if Shows(v, rows[|rows| - 1]) then [rows[|rows| - 1]] else [])
  }

  function Ones(n: nat): seq<bool> { seq(n, _ => true) }

  function And(a: seq<bool>, b: seq<bool>): (c: seq<bool>)
    requires |a| == |b|
    ensures |c| == |a|
  {
    seq(|a|, i requires 0 <= i < |a| => a[i] && b[i])
  }

  /** `masked_rows`: rows appended after the mask was built stay; a view of a view intersects the masks. */
  function MaskedRows(v: View, mask: seq<bool>): View {
    var m := if |mask| < v.g.count then mask + Ones(v.g.count - |mask|) else mask;
    match v.mask
    case None => v.(mask := Some(m))
    case Some(current) =>
      v.(mask := Some(if |m| >= |current| then And(m[..|current|], current) else And(m, current[..|m|])))
  }

  /** Each mask only hides: a row shows when every mask of the chain shows it. */
  lemma MasksIntersect(v: View, mask: seq<bool>, r: nat)
    requires MaskFits(v) && r < v.g.count
    ensures MaskFits(MaskedRows(v, mask)) && MaskedRows(v, mask).g == v.g
    ensures Shows(MaskedRows(v, mask), r) <==> Shows(v, r) && (r < |mask| ==> mask[r])
  {
  }

  lemma {:induction false} AllowedMembers(rows: seq<nat>, v: View, r: nat)
    ensures r in Allowed(rows, v) <==> r in rows && Shows(v, r)
  {
    if rows != [] { AllowedMembers(rows[..|rows| - 1], v, r); }
  }

  // ----- generations stay what they are -----

  /** An append on any generation the writer still has, or an undo. */
  datatype Change = Appends(on: nat, row: Row, terms: seq<string>) | TruncatesTo(count: nat)

  ghost predicate Fair(change: Change, kept: nat) {
    match change
    case Appends(_, row, terms) => Plain(row.identifier) && forall k :: 0 <= k < |terms| ==> Plain(terms[k])
    case TruncatesTo(count) => count >= kept
  }

  /** The writer's generations, by their count. */
  ghost predicate AllSeen(store: Store, gens: seq<Generation>)
    reads store, store.vocab
  {
    |gens| == |store.Records()| + 1 && forall k :: 0 <= k < |gens| ==> gens[k].count == k && store.Sees(gens[k])
  }

  /** What one change does to the records and to the writer's generations, and what it answers. */
  ghost predicate Changed(before: seq<Record>, gens: seq<Generation>, change: Change, reply: Option<Appending>,
      after: seq<Record>, gens': seq<Generation>, normal: string -> string)
    requires gens != []
  {
    match change
    case Appends(on, row, terms) =>
      var g, named := gens[on % |gens|], CuesOf(row, terms, normal);
      (match RefusalOf(before, g, row)
       case Some(refusal) => reply == Some(refusal) && after == before && gens' == gens
       case None =>
         && after == before + [Record(row, named)]
         && reply == Some(Appended(Extended(g, row, |named|))) && gens' == gens + [Extended(g, row, |named|)])
    case TruncatesTo(count) =>
      && reply == None
      && after == (if count < |before| then before[..count] else before)
      && gens' == (if count + 1 < |gens| then gens[..count + 1] else gens)
  }

  /** One change by the writer; whatever it is, generations up to `kept` are seen as before. */
  method Change1(store: Store, gens: seq<Generation>, change: Change, ghost kept: nat)
    returns (reply: Option<Appending>, after: seq<Generation>)
    requires store.Valid() && AllSeen(store, gens) && Fair(change, kept) && kept <= |store.Records()|
    modifies store, store.vocab
    ensures store.Valid() && AllSeen(store, after) && kept <= |store.Records()|
    ensures forall h :: old(store.Sees(h)) && h.count <= kept ==> store.Sees(h)
    ensures store.Records()[..kept] == old(store.Records())[..kept]
    ensures Changed(old(store.Records()), gens, change, reply, store.Records(), after, store.normal)
  {
    hide Vocab.Valid, Vocab.Strings, Inverse, Coded, Content, SeenIn, CuesOf, Store.MaskFresh, RowIndex, RefusalOf,
         Store.Refused;
    ghost var before := store.Records();
    after, reply := gens, None;
    match change
    case Appends(on, row, terms) =>
      RefusalAgrees(store, gens[on % |gens|], row);
      RefusalMeans(before, gens[on % |gens|], row);
      var result := store.Append(gens[on % |gens|], row, terms);
      reply := Some(result);
      if result.Appended? {
        after := gens + [result.next];
        ghost var now := before + [Record(row, CuesOf(row, terms, store.normal))];
        assert now[..kept] == before[..kept];
      }
    case TruncatesTo(count) =>
      store.TruncateTo(count);
      if count + 1 < |gens| { after := gens[..count + 1]; }
  }

  /**
   A reader keeps its view while the writer appends and undoes as it likes above the view's generation, each change
   doing what it must: every lookup and every recall is the view's on the records of the start, before and after, and
   so is all the generation carries.
   */
  method Pinned(store: Store, gens: seq<Generation>, v: View, changes: seq<Change>, cue: string, matched: seq<string>,
      current: seq<string>, navigation: seq<string>)
    returns (rowsBefore: seq<nat>, rowsAfter: seq<nat>, recallBefore: seq<Candidate>, recallAfter: seq<Candidate>,
      replies: seq<Option<Appending>>, ghost contents: seq<seq<Record>>, ghost writers: seq<seq<Generation>>)
    requires store.Valid() && AllSeen(store, gens) && store.Sees(v.g) && MaskFits(v)
    requires forall k :: 0 <= k < |changes| ==> Fair(changes[k], v.g.count)
    modifies store, store.vocab
    ensures rowsAfter == rowsBefore && recallAfter == recallBefore
    ensures v.g.count <= |old(store.Records())|
    ensures rowsBefore == Allowed(RowsWithCue(old(store.Records())[..v.g.count], cue), v)
    ensures Gathered(old(store.Records()), v, Unique(matched + Unique(navigation)),
              Unique(current + Unique(navigation)), v.g.count, recallBefore)
    ensures store.Valid() && store.Sees(v.g) && v.g == GenerationOf(old(store.Records())[..v.g.count])
    ensures |replies| == |changes| && |contents| == |writers| == |changes| + 1
    ensures contents[0] == old(store.Records()) && contents[|changes|] == store.Records() && writers[0] == gens
    ensures forall k :: 0 <= k < |changes| ==>
              && writers[k] != []
              && Changed(contents[k], writers[k], changes[k], replies[k], contents[k + 1], writers[k + 1], store.normal)
  {
    hide Vocab.Valid, Vocab.Strings, Inverse, Coded, Content, GenerationOf, Gathered, RowsWithCue, Fair, Changed,
         Allowed, SeenIn, Unique;
    SeenInside(store.Records());
    ghost var before := store.Records();
    rowsBefore := store.RowsForCue(v, cue);
    recallBefore := store.RecallCandidates(v, matched, current, navigation);
    var writer := gens;
    replies, contents, writers := [], [before], [gens];
    for k := 0 to |changes|
      invariant store.Valid() && AllSeen(store, writer) && store.Sees(v.g) && v.g.count <= |store.Records()|
      invariant store.Records()[..v.g.count] == before[..v.g.count]
      invariant |replies| == k && |contents| == |writers| == k + 1
      invariant contents[0] == before && contents[k] == store.Records() && writers[0] == gens && writers[k] == writer
      invariant forall j :: 0 <= j < k ==>
                  && writers[j] != []
                  && Changed(contents[j], writers[j], changes[j], replies[j], contents[j + 1], writers[j + 1],
                             store.normal)
    {
      var reply, next := Change1(store, writer, changes[k], v.g.count);
      writer := next;
      replies, contents, writers := replies + [reply], contents + [store.Records()], writers + [writer];
    }
    SeenIsGeneration(before, v.g);
    rowsAfter := store.RowsForCue(v, cue);
    recallAfter := store.RecallCandidates(v, matched, current, navigation);
    ghost var wanted, now := Unique(matched + Unique(navigation)), Unique(current + Unique(navigation));
    GatheredOfPrefix(before, store.Records(), v, wanted, now, v.g.count, recallBefore);
    GatheredIsUnique(store.Records(), v, wanted, now, v.g.count, recallBefore, recallAfter);
  }

  lemma SeenIsGeneration(content: seq<Record>, g: Generation)
    requires SeenIn(content, g)
    ensures g.count <= |content| && g == GenerationOf(content[..g.count])
  {
  }

  /** An append, refused or not as it must be, that is undone leaves nothing but vocabulary behind. */
  method AppendAndUndo(store: Store, g: Generation, row: Row, terms: seq<string>)
    returns (result: Appending, ghost between: seq<Record>)
    requires store.Valid() && store.Sees(g) && g.count == |store.Records()|
    requires Plain(row.identifier) && forall k :: 0 <= k < |terms| ==> Plain(terms[k])
    modifies store, store.vocab
    ensures store.Valid() && store.Records() == old(store.Records())
    ensures forall h :: old(store.Sees(h)) ==> store.Sees(h)
    ensures match RefusalOf(old(store.Records()), g, row)
            case Some(refusal) => result == refusal && between == old(store.Records())
            case None =>
              var named := CuesOf(row, terms, store.normal);
              && between == old(store.Records()) + [Record(row, named)]
              && result == Appended(Extended(g, row, |named|))
  {
    hide Vocab.Valid, Vocab.Strings, Inverse, Coded, Content, GenerationOf, CuesOf, Extended, RefusalOf, Store.Refused;
    ghost var before := store.Records();
    RefusalAgrees(store, g, row);
    result := store.Append(g, row, terms);
    between := store.Records();
    store.TruncateTo(g.count);
    assert store.Records() == before;
    forall h | old(store.Sees(h)) ensures store.Sees(h) { assert h.count <= |before|; }
  }

  /** What is gathered below `n` depends on the records below `n` alone. */
  lemma GatheredOfPrefix(before: seq<Record>, after: seq<Record>, v: View, wanted: seq<string>, current: seq<string>,
      n: nat, candidates: seq<Candidate>)
    requires n <= |before| && n <= |after| && before[..n] == after[..n]
             && Gathered(before, v, wanted, current, n, candidates)
    ensures Gathered(after, v, wanted, current, n, candidates)
  {
    hide Ranked, Recalled;
    forall r, c | 0 <= r < n ensures IsOf(after, v, wanted, current, r, c) <==> IsOf(before, v, wanted, current, r, c) {
      assert before[..n][r] == after[..n][r];
    }
  }

  lemma RowsAreRecords(store: Store)
    requires store.Valid()
    ensures |store.rows| == |store.Records()|
  {
  }

  method AppendFirst(store: Store, row: Row) returns (g: Generation)
    requires store.Valid() && store.Records() == [] && Plain(row.identifier) && row.supersedes == None
    modifies store`rowOf, store`cues, store`postings, store`rows, store.vocab
    ensures store.Valid() && store.Records() == [Record(row, CuesOf(row, [], store.normal))]
    ensures store.Sees(g) && g.count == 1
  {
    hide Vocab.Valid, Vocab.Strings, Inverse, Coded, Content, CuesOf, Plain, SeenIn, FreshIn, Store.Records,
         Store.MaskFresh, CodedRow, Named, GenerationOf;
    var empty := Generation(0, map[], map[], 0, map[]);
    NothingSeen(empty);
    RowsAreRecords(store);
    var result := store.Append(empty, row, []);
    g := result.next;
  }

  /** After an undo the kept mask can be stale: the row that took the undone one's place is judged by the old kind. */
  method StaleMask(hash: string -> nat, normal: string -> string) returns (store: Store, g: Generation, masked: View)
    requires forall text :: Plain(normal(text))
    ensures store.Valid() && g.count == |store.Records()| == 1 && store.Sees(g)
    ensures !HidesKinds(masked, View(g, None), store.Records(), ["fs_listing"])
  {
    hide Vocab.Valid, Vocab.Strings, Inverse, Coded, Content, CuesOf, Plain, SeenIn, FreshIn, Store.Valid,
         Store.Records,
         Store.Sees, Store.MaskFresh, Store.Refused, RowIndex, HidesKinds, Agrees, KindsShown, Shows,
         GenerationOf;
    store := new Store(hash, normal);
    PlainExamples();
    var listing := Row("memory:a", "s", "1", None, None, "", "fs_listing");
    var note := Row("memory:b", "s", "1", None, None, "", "note");
    var first := AppendFirst(store, listing);
    var seen := store.Masked(View(first, None), ["fs_listing"]);
    store.TruncateTo(0);
    g := AppendFirst(store, note);
    OldKind(Record(listing, CuesOf(listing, [], normal)), Record(note, CuesOf(note, [], normal)), g);
    masked := store.Masked(View(g, None), ["fs_listing"]);
  }

  lemma NothingSeen(empty: Generation)
    requires empty == Generation(0, map[], map[], 0, map[])
    ensures SeenIn([], empty)
  {
  }

  lemma OldKind(a: Record, b: Record, g: Generation)
    requires a.row.kind == "fs_listing" && b.row.kind == "note" && g.count == 1
    ensures !Agrees(KindsShown([a], 1, ["fs_listing"]), View(g, None), [b], ["fs_listing"])
  {
    assert !KindsShown([a], 1, ["fs_listing"])[0] && Shows(View(g, None), 0);
  }

  lemma PlainExamples()
    ensures Plain("memory:a") && Plain("memory:b")
  {
  }

  lemma CodedIsDistinct(strings: seq<string>, ids: seq<nat>)
    requires CodedRow(strings, ids)
    ensures forall i, j :: 0 <= i < j < |ids| ==> ids[i] != ids[j]
  {
  }

  lemma StringsGrew(before: seq<string>, after: seq<string>)
    requires |before| <= |after| && after[..|before|] == before
    ensures before + after[|before|..] == after
  {
  }

  lemma NextGeneration(content: seq<Record>, g: Generation, record: Record)
    requires g.count == |content| && SeenIn(content, g)
    ensures SeenIn(content + [record], Extended(g, record.row, |record.cues|))
  {
    assert content[..g.count] == content;
    assert (content + [record])[..g.count + 1] == content + [record];
    assert (content + [record])[..|content|] == content;
  }

  /** The declared predecessor has the same source, another revision, and no successor yet. */
  predicate Succeeds(g: Generation, earlier: Row, row: Row) {
    earlier.source == row.source && earlier.revision != row.revision && earlier.identifier !in g.superseded
  }

  // ----- recall -----

  datatype Candidate = Candidate(id: string, matched: seq<string>, overlap: real, revision: string, outcome: string)

  /** Code-point order of strings. */
  predicate Less(a: string, b: string) {
    if b == "" then false
    else if a == "" then true
    else a[0] < b[0] || (a[0] == b[0] && Less(a[1..], b[1..]))
  }

  lemma {:induction false} LessIsTotal(a: string, b: string)
    ensures Less(a, b) || Less(b, a) || a == b
    ensures !(Less(a, b) && Less(b, a)) && !Less(a, a)
  {
    if a != "" && b != "" {
      LessIsTotal(a[1..], b[1..]);
      assert a == [a[0]] + a[1..] && b == [b[0]] + b[1..];
    }
    if a != "" { LessIsTotal(a[1..], a[1..]); }
  }

  lemma {:induction false} LessIsTransitive(a: string, b: string, c: string)
    requires Less(a, b) && Less(b, c)
    ensures Less(a, c)
  {
    if a != "" { if a[0] == b[0] == c[0] { LessIsTransitive(a[1..], b[1..], c[1..]); } }
  }

  /** `(-cue_overlap, episode_id)`. */
  predicate Before(a: Candidate, b: Candidate) { a.overlap > b.overlap || (a.overlap == b.overlap && Less(a.id, b.id)) }

  ghost predicate Ranked(candidates: seq<Candidate>) {
    forall i, j :: 0 <= i < j < |candidates| ==> Before(candidates[i], candidates[j])
  }

  function Place(candidates: seq<Candidate>, c: Candidate): (more: seq<Candidate>)
    ensures forall x :: x in more <==> x in candidates || x == c
  {
    if candidates == [] || Before(c, candidates[0]) then [c] + candidates
       else [candidates[0]] + Place(candidates[1..], c)
  }

  lemma {:induction false} PlaceKeepsRank(candidates: seq<Candidate>, c: Candidate)
    requires Ranked(candidates) && forall i :: 0 <= i < |candidates| ==> candidates[i].id != c.id
    ensures Ranked(Place(candidates, c))
  {
    if candidates != [] {
      LessIsTotal(c.id, candidates[0].id);
      if Before(c, candidates[0]) {
        forall i | 0 <= i < |candidates| ensures Before(c, candidates[i]) {
          if i > 0 && c.overlap == candidates[0].overlap == candidates[i].overlap {
            LessIsTransitive(c.id, candidates[0].id, candidates[i].id);
          }
        }
      } else {
        PlaceKeepsRank(candidates[1..], c);
        var rest := Place(candidates[1..], c);
        forall i | 0 <= i < |rest| ensures Before(candidates[0], rest[i]) { assert rest[i] in rest; }
      }
    }
  }

  lemma HasMember(b: seq<Candidate>)
    ensures b == [] || exists x :: x in b
  {
    if b != [] { assert b[0] in b; }
  }

  /** A ranked list is determined by its members. */
  lemma {:induction false} RankedIsUnique(a: seq<Candidate>, b: seq<Candidate>)
    requires Ranked(a) && Ranked(b) && forall x :: x in a <==> x in b
    ensures a == b
  {
    if a == [] {
      HasMember(b);
    } else {
      assert a[0] in b && (b != [] ==> b[0] in a);
      FirstIsFirst(a, b);
      NotLater(a);
      NotLater(b);
      forall x ensures x in a[1..] <==> x in b[1..] {
        assert x in a <==> x == a[0] || x in a[1..];
        assert x in b <==> x == b[0] || x in b[1..];
      }
      RankedIsUnique(a[1..], b[1..]);
      assert a == [a[0]] + a[1..] && b == [b[0]] + b[1..];
    }
  }

  lemma NotLater(a: seq<Candidate>)
    requires Ranked(a) && a != []
    ensures a[0] !in a[1..]
  {
    LessIsTotal(a[0].id, a[0].id);
  }

  lemma FirstIsFirst(a: seq<Candidate>, b: seq<Candidate>)
    requires Ranked(a) && Ranked(b) && a != [] && b != [] && a[0] in b && b[0] in a
    ensures a[0] == b[0]
  {
    var i :| 0 <= i < |b| && b[i] == a[0];
    var j :| 0 <= j < |a| && a[j] == b[0];
    if i > 0 && j > 0 {
      assert Before(b[0], b[i]) && Before(a[0], a[j]);
      LessIsTotal(a[0].id, b[0].id);
      assert false;
    }
  }

  /** `tuple(dict.fromkeys(s))`. */
  function Unique(s: seq<string>): (u: seq<string>)
    ensures forall x :: x in u <==> x in s
    ensures Distinct(u)
  {
    if s == [] then []
    else
      var u := Unique(s[..|s| - 1]);
      if s[|s| - 1] in u then u else u + [s[|s| - 1]]
  }

  ghost function SetOf(s: seq<string>): set<string> { set x | x in s }

  lemma {:induction false} DistinctCard(s: seq<string>)
    requires Distinct(s)
    ensures |SetOf(s)| == |s|
  {
    if s != [] {
      var init, last := s[..|s| - 1], s[|s| - 1];
      DistinctCard(init);
      assert SetOf(s) == SetOf(init) + {last};
    }
  }

  /** The record's cues that are current, in the record's order. */
  function Kept(cues: seq<string>, current: set<string>): seq<string> {
    if cues == [] then []
    else Kept(cues[..|cues| - 1], current) + (if cues[|cues| - 1] in current then [cues[|cues| - 1]] else [])
  }

  /** The Jaccard overlap of the two cue sets. */
  ghost function Overlap(cues: set<string>, current: set<string>): real {
    if |cues + current| == 0 then 0.0 else |cues * current| as real / |cues + current| as real
  }

  ghost function Recalled(record: Record, current: set<string>): Candidate {
    Candidate(record.row.identifier, Kept(record.cues, current), Overlap(SetOf(record.cues), current),
      record.row.revision, record.row.outcome)
  }

  lemma {:induction false} KeptCard(cues: seq<string>, current: set<string>)
    requires Distinct(cues)
    ensures |Kept(cues, current)| == |SetOf(cues) * current|
  {
    if cues != [] {
      var init, last := cues[..|cues| - 1], cues[|cues| - 1];
      KeptCard(init, current);
      assert SetOf(cues) == SetOf(init) + {last} && last !in SetOf(init);
      if last in current { assert SetOf(cues) * current == SetOf(init) * current + {last}; }
      else { assert SetOf(cues) * current == SetOf(init) * current; }
    }
  }

  lemma UnionCard(a: set<string>, b: set<string>)
    ensures |a + b| == |a| + |b| - |a * b|
  {
    assert a + b == a + (b - a * b);
    assert |b - a * b| == |b| - |a * b|;
  }

  /** The ratio of counts the code computes is the Jaccard overlap. */
  lemma OverlapOfCounts(cues: seq<string>, current: seq<string>, matched: nat)
    requires Distinct(cues) && Distinct(current) && cues != [] && matched == |Kept(cues, SetOf(current))|
    ensures |cues| + |current| - matched > 0
    ensures Overlap(SetOf(cues), SetOf(current)) == matched as real / (|cues| + |current| - matched) as real
  {
    DistinctCard(cues);
    DistinctCard(current);
    KeptCard(cues, SetOf(current));
    UnionCard(SetOf(cues), SetOf(current));
    assert cues[0] in SetOf(cues) + SetOf(current);
  }

  /** The records a recall considers: visible, and carrying a wanted cue. */
  ghost predicate IsRecalled(content: seq<Record>, v: View, wanted: seq<string>, r: nat) {
    r < |content| && r < v.g.count && Shows(v, r) && exists cue :: cue in wanted && cue in content[r].cues
  }

  lemma {:induction false} RowsWithCueMembers(content: seq<Record>, cue: string, r: nat)
    ensures r in RowsWithCue(content, cue) <==> r < |content| && cue in content[r].cues
  {
    if content != [] { RowsWithCueMembers(content[..|content| - 1], cue, r); }
  }

  /** The ids of the current cues that the vocabulary knows, back to the cue. */
  ghost predicate Translates(names: map<nat, string>, strings: seq<string>, current: seq<string>) {
    forall c: nat :: c < |strings| ==>
        (c in names <==> strings[c] in current) && (c in names ==> names[c] == strings[c])
  }

  method TranslateCues(vocab: Vocab, current: seq<string>) returns (names: map<nat, string>)
    requires vocab.Valid()
    ensures Translates(names, vocab.Strings(), current)
  {
    ValidIsDistinct(vocab);
    hide Vocab.Valid, Vocab.Strings;
    names := map[];
    for k := 0 to |current|
      invariant Translates(names, vocab.Strings(), current[..k])
    {
      assert current[..k + 1] == current[..k] + [current[k]];
      var id := vocab.IdOf(current[k], None);
      if id.Some? { names := names[id.value := current[k]]; }
    }
    assert current[..|current|] == current;
  }

  /** The matched cues of one record, by id, are its current cues by string. */
  method MatchedCues(ids: seq<nat>, names: map<nat, string>, ghost strings: seq<string>, ghost current: seq<string>)
    returns (matched: seq<string>)
    requires CodedRow(strings, ids) && Translates(names, strings, current)
    ensures matched == Kept(Named(strings, ids), SetOf(current))
  {
    matched := [];
    ghost var cues := Named(strings, ids);
    for k := 0 to |ids|
      invariant matched == Kept(cues[..k], SetOf(current))
    {
      assert cues[..k + 1][..k] == cues[..k];
      if ids[k] in names { matched := matched + [names[ids[k]]]; }
    }
    assert cues[..|cues|] == cues;
  }

  lemma NamedIsDistinct(strings: seq<string>, ids: seq<nat>)
    requires CodedRow(strings, ids) && Distinct(strings)
    ensures Distinct(Named(strings, ids))
  {
  }

  /** One candidate, computed on ids. */
  method BuildCandidate(ids: seq<nat>, row: Row, names: map<nat, string>, current: seq<string>,
      ghost strings: seq<string>)
    returns (c: Candidate)
    requires CodedRow(strings, ids) && Distinct(strings) && Distinct(current) && ids != []
             && Translates(names, strings, current)
    ensures c == Recalled(Record(row, Named(strings, ids)), SetOf(current))
  {
    var matched := MatchedCues(ids, names, strings, current);
    NamedIsDistinct(strings, ids);
    OverlapOfCounts(Named(strings, ids), current, |matched|);
    c := Candidate(row.identifier, matched, |matched| as real / (|ids| + |current| - |matched|) as real, row.revision,
           row.outcome);
  }

  /** The candidate of a recalled record. */
  ghost predicate IsOf(content: seq<Record>, v: View, wanted: seq<string>, current: seq<string>, r: nat, c: Candidate) {
    IsRecalled(content, v, wanted, r) && r < |content| && c == Recalled(content[r], SetOf(current))
  }

  /** Exactly the recalled records below `n`, ranked. */
  ghost predicate Gathered(content: seq<Record>, v: View, wanted: seq<string>, current: seq<string>, n: nat,
      candidates: seq<Candidate>)
  {
    && Ranked(candidates)
    && forall c :: c in candidates <==>
         exists r :: 0 <= r < n && IsOf(content, v, wanted, current, r, c)
  }

  lemma GatherMore(content: seq<Record>, v: View, wanted: seq<string>, current: seq<string>, n: nat,
      candidates: seq<Candidate>)
    requires Gathered(content, v, wanted, current, n, candidates) && n < |content|
    requires forall i, j :: 0 <= i < j < |content| ==> content[i].row.identifier != content[j].row.identifier
    ensures Gathered(content, v, wanted, current, n + 1,
                     if IsRecalled(content, v, wanted, n) then Place(candidates, Recalled(content[n], SetOf(current)))
                        else candidates)
  {
    hide IsRecalled, Place, Overlap, Kept;
    var one := Recalled(content[n], SetOf(current));
    forall i | 0 <= i < |candidates| ensures candidates[i].id != one.id {
      assert candidates[i] in candidates;
      var r :| 0 <= r < n && IsOf(content, v, wanted, current, r, candidates[i]);
    }
    PlaceKeepsRank(candidates, one);
    var more := if IsRecalled(content, v, wanted, n) then Place(candidates, one) else candidates;
    forall c ensures c in more <==> exists r :: 0 <= r < n + 1 && IsOf(content, v, wanted, current, r, c) {
      if c in more {
        if c in candidates {
          var r :| 0 <= r < n && IsOf(content, v, wanted, current, r, c);
        } else {
          assert IsOf(content, v, wanted, current, n, c);
        }
      }
      if exists r :: 0 <= r < n + 1 && IsOf(content, v, wanted, current, r, c) {
        var r :| 0 <= r < n + 1 && IsOf(content, v, wanted, current, r, c);
        if r < n { assert c in candidates; }
      }
    }
  }

  /** Two answers of the same recall are the same list. */
  lemma GatheredIsUnique(content: seq<Record>, v: View, wanted: seq<string>, current: seq<string>, n: nat,
      a: seq<Candidate>, b: seq<Candidate>)
    requires Gathered(content, v, wanted, current, n, a) && Gathered(content, v, wanted, current, n, b)
    ensures a == b
  {
    hide Ranked;
    RankedIsUnique(a, b);
  }

  /** The recalled records of a masked view are those of the view it masks, without the hidden rows. */
  lemma MaskFiltersRecall(content: seq<Record>, v: View, mask: seq<bool>, wanted: seq<string>, r: nat)
    requires MaskFits(v)
    ensures IsRecalled(content, MaskedRows(v, mask), wanted, r) <==>
              IsRecalled(content, v, wanted, r) && (r < |mask| ==> mask[r])
  {
    if r < v.g.count { MasksIntersect(v, mask, r); }
  }

  function WithoutIds(candidates: seq<Candidate>, ids: set<string>): seq<Candidate> {
    if candidates == [] then []
    else
      var last := candidates[|candidates| - 1];
      WithoutIds(candidates[..|candidates| - 1], ids) + (if last.id in ids then [] else [last])
  }

  lemma {:induction false} WithoutIdsFacts(candidates: seq<Candidate>, ids: set<string>)
    requires Ranked(candidates)
    ensures Ranked(WithoutIds(candidates, ids))
    ensures forall c :: c in WithoutIds(candidates, ids) <==> c in candidates && c.id !in ids
  {
    hide Before;
    if candidates != [] {
      var init, last := candidates[..|candidates| - 1], candidates[|candidates| - 1];
      WithoutIdsFacts(init, ids);
      var rest := WithoutIds(init, ids);
      forall i | 0 <= i < |rest| ensures Before(rest[i], last) {
        assert rest[i] in rest;
        var k :| 0 <= k < |init| && init[k] == rest[i];
        assert candidates[k] == rest[i];
      }
      assert candidates == init + [last];
    }
  }

  ghost function HiddenIds(content: seq<Record>, mask: seq<bool>): set<string> {
    set r | 0 <= r < |content| && r < |mask| && !mask[r] :: content[r].row.identifier
  }

  /**
   The answer on a masked view is the answer on the view it masks with the hidden rows struck out, in the same
   order.
   */
  lemma MaskStrikesOut(content: seq<Record>, v: View, mask: seq<bool>, wanted: seq<string>, current: seq<string>,
      n: nat, all: seq<Candidate>, shown: seq<Candidate>)
    requires MaskFits(v) && Gathered(content, v, wanted, current, n, all)
    requires Gathered(content, MaskedRows(v, mask), wanted, current, n, shown)
    requires forall i, j :: 0 <= i < j < |content| ==> content[i].row.identifier != content[j].row.identifier
    ensures shown == WithoutIds(all, HiddenIds(content, mask))
  {
    hide Ranked, IsRecalled, Kept, Overlap, MaskedRows;
    var ids := HiddenIds(content, mask);
    WithoutIdsFacts(all, ids);
    forall c ensures c in shown <==> c in all && c.id !in ids {
      if c in shown {
        var r :| 0 <= r < n && IsOf(content, MaskedRows(v, mask), wanted, current, r, c);
        MaskFiltersRecall(content, v, mask, wanted, r);
        assert IsOf(content, v, wanted, current, r, c);
      }
      if c in all && c.id !in ids {
        var r :| 0 <= r < n && IsOf(content, v, wanted, current, r, c);
        MaskFiltersRecall(content, v, mask, wanted, r);
        assert IsOf(content, MaskedRows(v, mask), wanted, current, r, c);
      }
    }
    RankedIsUnique(shown, WithoutIds(all, ids));
  }
}
