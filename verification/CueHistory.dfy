/**
 What the cue directory of `cue_shards.py` publishes: append-only posting chains under two-copy heads, read as a
 newest-first multimap, and what batches and their repetition add to a history.
 */
module CueHistory {
  import opened Wrappers

  type Cue = string

  /** One published experience: the shard that holds it and its address. */
  datatype Entry = Entry(shard: string, identifier: string)

  /** A posting node; `previous` is the position after the node it continues, 0 for none. */
  datatype Node = Node(previous: nat, entry: Entry)

  datatype Copy = Unreadable | Copy(head: nat, count: nat, generation: nat)

  /** The two copies of a slot's head. */
  datatype Heads = Heads(first: Copy, second: Copy)

  datatype Active = Active(head: nat, count: nat, generation: nat, index: int)

  function Of(copy: Copy, index: int): Active
    requires copy.Copy?
  {
    Active(copy.head, copy.count, copy.generation, index)
  }

  /** `_state`: the readable copy of the highest generation. */
  function State(heads: Heads): Option<Active> {
    if heads.first.Copy? && (heads.second.Copy? ==> heads.first.generation >= heads.second.generation)
    then Some(Of(heads.first, 0))
    else if heads.second.Copy? then Some(Of(heads.second, 1))
    else None
  }

  // ----- posting chains -----

  /** Every node continues an earlier one, so chains are acyclic. */
  ghost predicate Backward(postings: seq<Node>) { forall k :: 0 <= k < |postings| ==> postings[k].previous <= k }

  /** What a chain publishes, oldest first. */
  ghost function History(postings: seq<Node>, head: nat): seq<Entry> {
    if head == 0 || head > |postings| || postings[head - 1].previous >= head then []
    else History(postings, postings[head - 1].previous) + [postings[head - 1].entry]
  }

  lemma {:induction false} HistoryStable(postings: seq<Node>, more: seq<Node>, head: nat)
    requires head <= |postings|
    ensures History(postings + more, head) == History(postings, head)
    decreases head
  {
    if head > 0 {
      assert (postings + more)[head - 1] == postings[head - 1];
      if postings[head - 1].previous < head { HistoryStable(postings, more, postings[head - 1].previous); }
    }
  }

  /** The active copy's chain is complete: exactly `count` nodes. */
  ghost predicate Readable(heads: Heads, postings: seq<Node>) {
    match State(heads)
    case None => false
    case Some(active) => 0 < active.head <= |postings| && active.count == |History(postings, active.head)|
  }

  ghost function HeadsHistory(postings: seq<Node>, heads: Heads): seq<Entry> {
    match State(heads)
    case None => []
    case Some(active) => History(postings, active.head)
  }

  // ----- newest first, each experience once -----

  function Reversed(s: seq<Entry>): seq<Entry> { if s == [] then [] else Reversed(s[1..]) + [s[0]] }

  /** `tuple(dict.fromkeys(s))`: first occurrences, in order. */
  function Distinct<T(==,!new)>(s: seq<T>): (d: seq<T>)
    ensures forall e :: e in d <==> e in s
  {
    if s == [] then []
    else
      var d := Distinct(s[..|s| - 1]);
      if s[|s| - 1] in d then d else d + [s[|s| - 1]]
  }

  /** The answer for a history. */
  function Recent(history: seq<Entry>): seq<Entry> { Distinct(Reversed(history)) }

  /** Position of the last publication of `e`, or -1. */
  function LastAt(history: seq<Entry>, e: Entry): (k: int)
    ensures -1 <= k < |history|
    ensures k >= 0 ==> history[k] == e
    ensures forall i :: k < i < |history| ==> history[i] != e
  {
    if history == [] then -1
    else if history[|history| - 1] == e then |history| - 1
    else LastAt(history[..|history| - 1], e)
  }

  function FirstAt(s: seq<Entry>, e: Entry): (k: nat)
    ensures k <= |s| && (k < |s| ==> s[k] == e) && forall i :: 0 <= i < k ==> s[i] != e
  {
    if s == [] || s[0] == e then 0 else 1 + FirstAt(s[1..], e)
  }

  lemma {:induction false} ReversedAt(s: seq<Entry>)
    ensures |Reversed(s)| == |s|
    ensures forall k :: 0 <= k < |s| ==> Reversed(s)[k] == s[|s| - 1 - k]
  {
    if s != [] { ReversedAt(s[1..]); }
  }

  /** First occurrences stay in order of where they first occur. */
  lemma {:induction false} DistinctOrdered(s: seq<Entry>, i: nat, j: nat)
    requires i < j < |Distinct(s)|
    ensures FirstAt(s, Distinct(s)[i]) < FirstAt(s, Distinct(s)[j]) < |s|
  {
    var init, last := s[..|s| - 1], s[|s| - 1];
    var d := Distinct(init);
    assert s == init + [last];
    assert Distinct(s)[i] in init;
    FirstAtInit(init, last, Distinct(s)[i]);
    FirstAtInit(init, last, Distinct(s)[j]);
    if j < |d| { DistinctOrdered(init, i, j); }
  }

  lemma {:induction false} FirstAtInit(init: seq<Entry>, last: Entry, e: Entry)
    ensures e in init ==> FirstAt(init + [last], e) == FirstAt(init, e) < |init|
    ensures e !in init && e == last ==> FirstAt(init + [last], e) == |init|
  {
    if init != [] {
      assert (init + [last])[1..] == init[1..] + [last];
      FirstAtInit(init[1..], last, e);
    }
  }

  lemma FirstOfReversed(s: seq<Entry>, e: Entry)
    requires e in s
    ensures FirstAt(Reversed(s), e) == |s| - 1 - LastAt(s, e)
  {
    ReversedAt(s);
    var k, i := FirstAt(Reversed(s), e), LastAt(s, e);
    var at :| 0 <= at < |s| && s[at] == e;
    assert Reversed(s)[|s| - 1 - at] == e;
    assert Reversed(s)[|s| - 1 - i] == s[i];
    assert k < |s| && Reversed(s)[k] == s[|s| - 1 - k];
  }

  /**
   The answer holds exactly what was published, each once, strictly ordered by last publication, newest
   first.
   */
  lemma RecentIsNewestFirst(history: seq<Entry>)
    ensures forall e :: e in Recent(history) <==> e in history
    ensures forall i, j :: 0 <= i < j < |Recent(history)| ==>
              LastAt(history, Recent(history)[i]) > LastAt(history, Recent(history)[j])
  {
    InReversed(history);
    forall i, j | 0 <= i < j < |Recent(history)|
      ensures LastAt(history, Recent(history)[i]) > LastAt(history, Recent(history)[j])
    {
      assert Recent(history)[i] in Recent(history) && Recent(history)[j] in Recent(history);
      DistinctOrdered(Reversed(history), i, j);
      FirstOfReversed(history, Recent(history)[i]);
      FirstOfReversed(history, Recent(history)[j]);
    }
  }

  lemma InReversed(s: seq<Entry>)
    ensures forall e :: e in Reversed(s) <==> e in s
  {
    ReversedAt(s);
    forall e | e in s ensures e in Reversed(s) {
      var k :| 0 <= k < |s| && s[k] == e;
      assert Reversed(s)[|s| - 1 - k] == e;
    }
  }

  // ----- publishing on a history -----

  /** Repeating the newest identifier adds nothing. */
  function Publish(history: seq<Entry>, e: Entry): seq<Entry> {
    if history != [] && history[|history| - 1].identifier == e.identifier then history else history + [e]
  }

  function PublishAll(history: seq<Entry>, entries: seq<Entry>): seq<Entry> {
    if entries == [] then history
    else Publish(PublishAll(history, entries[..|entries| - 1]), entries[|entries| - 1])
  }

  lemma {:induction false} PublishAllConcat(history: seq<Entry>, a: seq<Entry>, b: seq<Entry>)
    ensures PublishAll(history, a + b) == PublishAll(PublishAll(history, a), b)
  {
    if b == [] {
      assert a + b == a;
    } else {
      PublishAllConcat(history, a, b[..|b| - 1]);
      assert (a + b)[..|a + b| - 1] == a + b[..|b| - 1];
    }
  }

  /** One shard per experience. */
  ghost predicate OneShard(entries: seq<Entry>) {
    forall i, j :: 0 <= i < |entries| && 0 <= j < |entries| && entries[i].identifier == entries[j].identifier ==>
        entries[i] == entries[j]
  }

  function Without(s: seq<Entry>, gone: seq<Entry>): seq<Entry> {
    if s == [] then [] else Without(s[..|s| - 1], gone) + (if s[|s| - 1] in gone then [] else [s[|s| - 1]])
  }

  lemma {:induction false} WithoutConcat(s: seq<Entry>, t: seq<Entry>, gone: seq<Entry>)
    ensures Without(s + t, gone) == Without(s, gone) + Without(t, gone)
  {
    if t == [] {
      assert s + t == s;
    } else {
      WithoutConcat(s, t[..|t| - 1], gone);
      assert (s + t)[..|s + t| - 1] == s + t[..|t| - 1];
    }
  }

  lemma {:induction false} WithoutTwice(s: seq<Entry>, a: seq<Entry>, b: seq<Entry>)
    ensures Without(Without(s, a), b) == Without(s, a + b)
  {
    if s != [] {
      var init, last := s[..|s| - 1], s[|s| - 1];
      WithoutTwice(init, a, b);
      var tail: seq<Entry> := if last in a then [] else [last];
      WithoutConcat(Without(init, a), tail, b);
      assert Without(tail, b) == if last in a + b then [] else [last];
    }
  }

  lemma {:induction false} WithoutAll(s: seq<Entry>, gone: seq<Entry>)
    requires forall i :: 0 <= i < |s| ==> s[i] in gone
    ensures Without(s, gone) == []
  {
    if s != [] { WithoutAll(s[..|s| - 1], gone); }
  }

  lemma {:induction false} ReversedSnoc(s: seq<Entry>, e: Entry)
    ensures Reversed(s + [e]) == [e] + Reversed(s)
  {
    if s != [] {
      assert (s + [e])[1..] == s[1..] + [e];
      ReversedSnoc(s[1..], e);
    }
  }

  lemma Associates(a: seq<Entry>, b: seq<Entry>, c: seq<Entry>)
    ensures a + (b + c) == (a + b) + c
  {
  }

  /** One more element: kept unless it occurred before. */
  function Noting(d: seq<Entry>, e: Entry): seq<Entry> { if e in d then d else d + [e] }

  lemma DistinctSnoc(s: seq<Entry>, e: Entry)
    ensures Distinct(s + [e]) == Noting(Distinct(s), e)
  {
    assert (s + [e])[..|s|] == s;
  }

  lemma {:induction false} DistinctCons(e: Entry, s: seq<Entry>)
    ensures Distinct([e] + s) == [e] + Without(Distinct(s), [e])
  {
    if s == [] {
      assert [e] + s == [] + [e];
      DistinctSnoc([], e);
    } else {
      var init, last := s[..|s| - 1], s[|s| - 1];
      var d, kept := Distinct(init), Without(Distinct(init), [e]);
      assert s == init + [last];
      Associates([e], init, [last]);
      hide Distinct, Without;
      DistinctCons(e, init);
      DistinctSnoc(init, last);
      DistinctSnoc([e] + init, last);
      WithoutConcat(d, [last], [e]);
      WithoutOne(last, e);
      Associates([e], kept, [last]);
      assert last in [e] + init <==> last == e || last in init;
      if last == e { assert kept + [] == kept; }
    }
  }

  lemma WithoutOne(e: Entry, gone: Entry)
    ensures Without([e], [gone]) == if e == gone then [] else [e]
  {
  }

  lemma RecentSnoc(s: seq<Entry>, e: Entry)
    ensures Recent(s + [e]) == [e] + Without(Recent(s), [e])
  {
    ReversedSnoc(s, e);
    DistinctCons(e, Reversed(s));
  }

  /** Later publications come first; what they repeat is dropped from the earlier answer. */
  lemma {:induction false} RecentConcat(s: seq<Entry>, t: seq<Entry>)
    ensures Recent(s + t) == Recent(t) + Without(Recent(s), t)
  {
    if t == [] {
      assert s + t == s;
      WithoutNothing(Recent(s));
    } else {
      var init, last := t[..|t| - 1], t[|t| - 1];
      assert t == init + [last];
      Associates(s, init, [last]);
      hide Recent, Without;
      RecentConcat(s, init);
      RecentSnoc(s + init, last);
      RecentSnoc(init, last);
      WithoutConcat(Recent(init), Without(Recent(s), init), [last]);
      WithoutTwice(Recent(s), init, [last]);
      Associates([last], Without(Recent(init), [last]), Without(Recent(s), t));
    }
  }

  lemma {:induction false} WithoutNothing(s: seq<Entry>)
    ensures Without(s, []) == s
  {
    if s != [] { WithoutNothing(s[..|s| - 1]); }
  }

  lemma RecentTwice(s: seq<Entry>, t: seq<Entry>)
    ensures Recent(s + t + t) == Recent(s + t)
  {
    hide Recent, Without;
    RecentConcat(s + t, t);
    RecentConcat(s, t);
    WithoutConcat(Recent(t), Without(Recent(s), t), t);
    RecentIsNewestFirst(t);
    forall i | 0 <= i < |Recent(t)| ensures Recent(t)[i] in t { assert Recent(t)[i] in Recent(t); }
    WithoutAll(Recent(t), t);
    WithoutTwice(Recent(s), t, t);
    WithoutSame(Recent(s), t + t, t);
    var older: seq<Entry> := Without(Recent(s), t);
    assert [] + older == older;
  }

  lemma {:induction false} WithoutSame(s: seq<Entry>, a: seq<Entry>, b: seq<Entry>)
    requires forall e :: e in a <==> e in b
    ensures Without(s, a) == Without(s, b)
  {
    if s != [] { WithoutSame(s[..|s| - 1], a, b); }
  }

  ghost predicate SameEnd(a: seq<Entry>, b: seq<Entry>) {
    if a == [] then b == [] else b != [] && a[|a| - 1] == b[|b| - 1]
  }

  lemma {:induction false} PublishedMembers(history: seq<Entry>, entries: seq<Entry>)
    ensures forall e :: e in PublishAll(history, entries) ==> e in history + entries
  {
    if entries == [] {
      assert history + entries == history;
    } else {
      PublishedMembers(history, entries[..|entries| - 1]);
    }
  }

  lemma RecentStep(before: seq<Entry>, full: seq<Entry>, e: Entry)
    requires Recent(before) == Recent(full) && SameEnd(before, full)
    requires before != [] && before[|before| - 1].identifier == e.identifier ==> before[|before| - 1] == e
    ensures Recent(Publish(before, e)) == Recent(full + [e]) && SameEnd(Publish(before, e), full + [e])
  {
    hide Recent;
    RecentSnoc(full, e);
    RecentSnoc(before, e);
    if before != [] && before[|before| - 1].identifier == e.identifier { RepeatedLast(full, e); }
  }

  lemma OneShardPrefix(all: seq<Entry>, k: nat)
    requires OneShard(all) && k <= |all|
    ensures OneShard(all[..k])
  {
  }

  lemma {:induction false} PublishedEnds(history: seq<Entry>, entries: seq<Entry>)
    requires OneShard(history + entries)
    ensures Recent(PublishAll(history, entries)) == Recent(history + entries)
    ensures SameEnd(PublishAll(history, entries), history + entries)
  {
    var all := history + entries;
    if entries == [] {
      assert all == history;
    } else {
      var init, e := entries[..|entries| - 1], entries[|entries| - 1];
      assert all == (history + init) + [e];
      assert all[..|all| - 1] == history + init;
      OneShardPrefix(all, |all| - 1);
      PublishedEnds(history, init);
      assert |all| > 1 ==> all[|all| - 2].identifier == all[|all| - 1].identifier ==> all[|all| - 2] == e;
      hide Recent, OneShard;
      RecentStep(PublishAll(history, init), history + init, e);
    }
  }

  lemma RepeatedLast(s: seq<Entry>, e: Entry)
    requires s != [] && s[|s| - 1] == e
    ensures Recent(s + [e]) == Recent(s)
  {
    var init := s[..|s| - 1];
    assert s == init + [e];
    RecentTwice(init, [e]);
  }

  /**
   Skipping repeats is invisible: with one shard per experience the answer is the publications themselves,
   newest first.
   */
  lemma SkipsDoNotShow(history: seq<Entry>, entries: seq<Entry>)
    requires OneShard(history + entries)
    ensures Recent(PublishAll(history, entries)) == Recent(history + entries)
  {
    PublishedEnds(history, entries);
  }

  /** Publishing a batch again changes no answer. */
  lemma RetryDoesNotShow(history: seq<Entry>, entries: seq<Entry>)
    requires OneShard(history + entries)
    ensures Recent(PublishAll(PublishAll(history, entries), entries)) == Recent(PublishAll(history, entries))
  {
    var once := PublishAll(history, entries);
    PublishedEnds(history, entries);
    PublishedMembers(history, entries);
    forall i, j | 0 <= i < |once + entries| && 0 <= j < |once + entries|
      && (once + entries)[i].identifier == (once + entries)[j].identifier
      ensures (once + entries)[i] == (once + entries)[j]
    {
      assert (once + entries)[i] in history + entries && (once + entries)[j] in history + entries;
    }
    SkipsDoNotShow(once, entries);
    RecentConcat(once, entries);
    RecentConcat(history + entries, entries);
    RecentTwice(history, entries);
  }

  /** Whatever a crash left of a batch, putting it again answers as if it had never been interrupted. */
  lemma RetryAfterCrash(history: seq<Entry>, entries: seq<Entry>, left: seq<Entry>)
    requires OneShard(history + entries) && left in {history, PublishAll(history, entries)}
    ensures Recent(PublishAll(left, entries)) == Recent(history + entries)
  {
    SkipsDoNotShow(history, entries);
    RetryDoesNotShow(history, entries);
  }

  /** When a publication becomes visible at all: unless the newest one names the same experience in another shard. */
  lemma PublicationIsVisibleIff(history: seq<Entry>, e: Entry)
    ensures e in Recent(Publish(history, e)) <==>
            e in history || history == [] || history[|history| - 1].identifier != e.identifier
  {
    RecentIsNewestFirst(Publish(history, e));
  }

  // ----- a batch -----

  datatype Record = Record(cues: seq<Cue>, entry: Entry)

  /** One publication a batch asks for. */
  datatype Offer = Offer(cue: Cue, entry: Entry)

  /** A record offers its entry to each of its cues once. */
  function OffersOf(record: Record): seq<Offer> {
    var cues := Distinct(record.cues);
    seq(|cues|, k requires 0 <= k < |cues| => Offer(cues[k], record.entry))
  }

  function Offers(records: seq<Record>): seq<Offer> {
    if records == [] then [] else Offers(records[..|records| - 1]) + OffersOf(records[|records| - 1])
  }

  lemma {:induction false} OffersConcat(a: seq<Record>, b: seq<Record>)
    ensures Offers(a + b) == Offers(a) + Offers(b)
  {
    hide OffersOf;
    if b == [] {
      assert a + b == a;
    } else {
      var init, last := b[..|b| - 1], b[|b| - 1];
      OffersConcat(a, init);
      assert (a + b)[..|a + b| - 1] == a + init;
      assert Offers(a) + Offers(init) + OffersOf(last) == Offers(a) + (Offers(init) + OffersOf(last));
    }
  }

  /** The entries offered to a cue, in order. */
  function EntriesFor(offers: seq<Offer>, cue: Cue): seq<Entry> {
    if offers == [] then []
    else EntriesFor(offers[..|offers| - 1], cue)
         + (if offers[|offers| - 1].cue == cue then [offers[|offers| - 1].entry] else [])
  }

  lemma {:induction false} EntriesForConcat(a: seq<Offer>, b: seq<Offer>, cue: Cue)
    ensures EntriesFor(a + b, cue) == EntriesFor(a, cue) + EntriesFor(b, cue)
  {
    if b == [] {
      assert a + b == a;
    } else {
      EntriesForConcat(a, b[..|b| - 1], cue);
      assert (a + b)[..|a + b| - 1] == a + b[..|b| - 1];
    }
  }

  lemma EntriesForMore(offers: seq<Offer>, offer: Offer, cue: Cue)
    ensures EntriesFor(offers + [offer], cue)
            == EntriesFor(offers, cue) + (if offer.cue == cue then [offer.entry] else [])
  {
    assert (offers + [offer])[..|offers|] == offers;
  }

  ghost predicate Offered(offers: seq<Offer>, cue: Cue) { exists k :: 0 <= k < |offers| && offers[k].cue == cue }

  lemma {:induction false} NotOffered(offers: seq<Offer>, cue: Cue)
    requires !Offered(offers, cue)
    ensures EntriesFor(offers, cue) == []
  {
    if offers != [] {
      var init := offers[..|offers| - 1];
      forall k | 0 <= k < |init| ensures init[k].cue != cue { assert offers[k].cue != cue; }
      NotOffered(init, cue);
      assert offers[|offers| - 1].cue != cue;
    }
  }

  /** A batch leaves what its records leave when put one after the other. */
  lemma BatchIsOneByOne(history: seq<Entry>, a: seq<Record>, b: seq<Record>, cue: Cue)
    ensures PublishAll(history, EntriesFor(Offers(a + b), cue))
         == PublishAll(PublishAll(history, EntriesFor(Offers(a), cue)), EntriesFor(Offers(b), cue))
  {
    hide PublishAll, EntriesFor, Offers;
    OffersConcat(a, b);
    EntriesForConcat(Offers(a), Offers(b), cue);
    PublishAllConcat(history, EntriesFor(Offers(a), cue), EntriesFor(Offers(b), cue));
  }

  lemma HistoryEnd(nodes: seq<Node>, head: nat)
    requires Backward(nodes) && head <= |nodes|
    ensures head == 0 ==> History(nodes, head) == []
    ensures head > 0 ==>
              History(nodes, head) != [] && History(nodes, head)[|History(nodes, head)| - 1] == nodes[head - 1].entry
  {
  }

  lemma HistoryUnfolds(nodes: seq<Node>, head: nat)
    requires Backward(nodes) && head <= |nodes| && |History(nodes, head)| > 0
    ensures head > 0 && nodes[head - 1].previous < head
    ensures History(nodes, head) == History(nodes, nodes[head - 1].previous) + [nodes[head - 1].entry]
  {
  }

  /** The `count` nodes from `head`, newest first; stops early at the end of the chain. */
  method WalkChain(postings: seq<Node>, head: nat, count: nat) returns (matches: seq<Entry>, offset: nat)
    requires Backward(postings) && 0 < head <= |postings| && |History(postings, head)| == count
    ensures matches == Reversed(History(postings, head)) && |matches| == count && offset == 0
  {
    ghost var history := History(postings, head);
    hide History, Reversed;
    offset, matches := head, [];
    ReversedAt(history);
    for i := 0 to count
      invariant |matches| == i && offset <= |postings| && i + |History(postings, offset)| == count
      invariant Reversed(history) == matches + Reversed(History(postings, offset))
    {
      HistoryUnfolds(postings, offset);
      var node := postings[offset - 1];
      ReversedSnoc(History(postings, node.previous), node.entry);
      Associates(matches, [node.entry], Reversed(History(postings, node.previous)));
      matches := matches + [node.entry];
      offset := node.previous;
      if offset == 0 { break; }
    }
    HistoryEnd(postings, offset);
    ReversedAt(History(postings, offset));
  }
}
