/** Reciprocal rank fusion of ranked result lists (app/retrieval/hybrid_retriever.py), with exact scores. */
module Fusion {
  import opened Common

  datatype Item = Item(parent: Option<string>, metaParent: Option<string>, content: string)
  datatype Fused = Fused(item: Item, id: string, score: real)

  /** The parent id, or the metadata's, or a hash of the content; empty ids count as missing. */
  function DocId(item: Item, hash: string -> string): string {
    if item.parent.Some? && item.parent.value != "" then item.parent.value
    else if item.metaParent.Some? && item.metaParent.value != "" then item.metaParent.value
    else hash(item.content)
  }

  /** An item as met: its document, its rank in its list, and itself. */
  datatype Hit = Hit(id: string, rank: nat, item: Item)

  function HitsOf(list: seq<Item>, hash: string -> string): seq<Hit> {
    seq(|list|, r requires 0 <= r < |list| => Hit(DocId(list[r], hash), r, list[r]))
  }

  /** All hits, list by list in rank order. */
  function Hits(lists: seq<seq<Item>>, hash: string -> string): seq<Hit> {
    if lists == [] then [] else Hits(lists[..|lists| - 1], hash) + HitsOf(lists[|lists| - 1], hash)
  }

  function Share(k: nat, rank: nat): real { 1.0 / (k + rank + 1) as real }

  /** The exact sum over all hits of a document. */
  function Score(hits: seq<Hit>, k: nat, id: string): real {
    if hits == [] then 0.0 else
      var last := hits[|hits| - 1];
      Score(hits[..|hits| - 1], k, id) + if last.id == id then Share(k, last.rank) else 0.0
  }

  /** The id is the parent's if there is one, else the metadata's, else the content's hash. */
  lemma DocIdIs(item: Item, hash: string -> string)
    ensures item.parent.Some? && item.parent.value != "" ==> DocId(item, hash) == item.parent.value
    ensures (item.parent.None? || item.parent.value == "") && item.metaParent.Some? && item.metaParent.value != "" ==>
              DocId(item, hash) == item.metaParent.value
    ensures (item.parent.None? || item.parent.value == "") && (item.metaParent.None? || item.metaParent.value == "") ==>
              DocId(item, hash) == hash(item.content)
  {
  }

  /** What one list gives a document from rank r on: 1 / (k + rank + 1) for each of its items there. */
  function ListGives(list: seq<Item>, k: nat, id: string, hash: string -> string, r: nat): real
    decreases |list| - r
  {
    if r >= |list| then 0.0
    else (if DocId(list[r], hash) == id then 1.0 / ((k + r + 1) as real) else 0.0) + ListGives(list, k, id, hash, r + 1)
  }

  /** And all lists together, from the first. */
  function ListsGive(lists: seq<seq<Item>>, k: nat, id: string, hash: string -> string): real {
    if lists == [] then 0.0 else ListGives(lists[0], k, id, hash, 0) + ListsGive(lists[1..], k, id, hash)
  }

  lemma {:induction false} ScoreApart(a: seq<Hit>, b: seq<Hit>, k: nat, id: string)
    ensures Score(a + b, k, id) == Score(a, k, id) + Score(b, k, id)
    decreases |b|
  {
    hide Share;
    if b == [] {
      assert a + b == a;
    } else {
      assert (a + b)[..|a + b| - 1] == a + b[..|b| - 1];
      ScoreApart(a, b[..|b| - 1], k, id);
    }
  }

  lemma {:induction false} ListScore(list: seq<Item>, k: nat, id: string, hash: string -> string, r: nat)
    requires r <= |list|
    ensures Score(HitsOf(list, hash)[r..], k, id) == ListGives(list, k, id, hash, r)
    decreases |list| - r
  {
    var hits := HitsOf(list, hash);
    if r < |list| {
      ListScore(list, k, id, hash, r + 1);
      assert hits[r..] == [hits[r]] + hits[r + 1..];
      ScoreApart([hits[r]], hits[r + 1..], k, id);
      assert [hits[r]][..0] == [];
    }
  }

  /** A document's score is that sum. */
  lemma {:induction false} ScoreIsSum(lists: seq<seq<Item>>, k: nat, id: string, hash: string -> string)
    ensures Score(Hits(lists, hash), k, id) == ListsGive(lists, k, id, hash)
  {
    hide Score, HitsOf;
    if lists == [] {
      assert Score([], k, id) == 0.0 by { ScoreNothing(k, id); }
    } else {
      HitsFromFirst(lists, hash);
      ScoreIsSum(lists[1..], k, id, hash);
      ScoreApart(HitsOf(lists[0], hash), Hits(lists[1..], hash), k, id);
      ListScore(lists[0], k, id, hash, 0);
      assert HitsOf(lists[0], hash)[0..] == HitsOf(lists[0], hash);
    }
  }

  lemma ScoreNothing(k: nat, id: string)
    ensures Score([], k, id) == 0.0
  {
  }

  lemma {:induction false} HitsFromFirst(lists: seq<seq<Item>>, hash: string -> string)
    requires lists != []
    ensures Hits(lists, hash) == HitsOf(lists[0], hash) + Hits(lists[1..], hash)
  {
    hide HitsOf;
    var n := |lists| - 1;
    if n == 0 {
      assert lists[..0] == [] && lists[1..] == [];
    } else {
      HitsFromFirst(lists[..n], hash);
      assert lists[..n][1..] == lists[1..][..n - 1] && lists[1..][n - 1] == lists[n] && lists[..n][0] == lists[0];
    }
  }

  ghost predicate Met(hits: seq<Hit>, id: string) { exists p :: 0 <= p < |hits| && hits[p].id == id }

  /** Hit p is the document's first. */
  ghost predicate First(hits: seq<Hit>, id: string, p: nat) {
    p < |hits| && hits[p].id == id && forall q :: 0 <= q < p ==> hits[q].id != id
  }

  /** The first hit of x comes before the first hit of y. */
  ghost predicate MetBefore(hits: seq<Hit>, x: string, y: string) {
    forall p: nat, q: nat :: First(hits, x, p) && First(hits, y, q) ==> p < q
  }

  /** Hit p is the document's best: no hit of it ranks better, and none before it as well. */
  ghost predicate Best(hits: seq<Hit>, id: string, p: nat) {
    && p < |hits| && hits[p].id == id
    && (forall q :: 0 <= q < |hits| && hits[q].id == id ==> hits[p].rank <= hits[q].rank)
    && (forall q :: 0 <= q < p && hits[q].id == id ==> hits[p].rank < hits[q].rank)
  }

  ghost predicate Represents(hits: seq<Hit>, id: string, item: Item) {
    exists p: nat :: Best(hits, id, p) && hits[p].item == item
  }

  // ── the tables ─────────────────────────────────────────────────────────────

  /** The dictionaries after some hits: `order` is their common key order. */
  datatype Tables = Tables(order: seq<string>, scores: map<string, real>, ranks: map<string, nat>, items: map<string,
                           Item>)

  ghost predicate Right(t: Tables, hits: seq<Hit>, k: nat) {
    && t.scores.Keys == t.ranks.Keys == t.items.Keys
    && (forall id :: id in t.order <==> id in t.scores)
    && (forall id :: id in t.scores <==> Met(hits, id))
    && (forall id :: id in t.scores ==> t.scores[id] == Score(hits, k, id))
    && (forall id :: id in t.scores ==> KeepsBest(t, hits, id))
    && InFirstOrder(t.order, hits)
  }

  ghost predicate KeepsBest(t: Tables, hits: seq<Hit>, id: string) {
    id in t.ranks && id in t.items
    && exists p: nat :: Best(hits, id, p) && t.ranks[id] == hits[p].rank && t.items[id] == hits[p].item
  }

  /** The ids stand in the order of their first hits. */
  ghost predicate InFirstOrder(order: seq<string>, hits: seq<Hit>) {
    forall i, j :: 0 <= i < j < |order| ==> MetBefore(hits, order[i], order[j])
  }

  function Counted(t: Tables, h: Hit, k: nat): Tables
    requires t.scores.Keys == t.ranks.Keys == t.items.Keys
  {
    var known := h.id in t.scores;
    var better := h.id !in t.ranks || h.rank < t.ranks[h.id];
    Tables(if known then t.order else t.order + [h.id],
           t.scores[h.id := (if known then t.scores[h.id] else 0.0) + Share(k, h.rank)],
           if better then t.ranks[h.id := h.rank] else t.ranks,
           if better then t.items[h.id := h.item] else t.items)
  }

  lemma MetMore(hits: seq<Hit>, h: Hit, id: string)
    ensures Met(hits + [h], id) <==> Met(hits, id) || h.id == id
  {
    var more := hits + [h];
    if Met(hits, id) { var p :| 0 <= p < |hits| && hits[p].id == id; assert more[p].id == id; }
    if h.id == id { assert more[|hits|].id == id; }
  }

  lemma BestStays(hits: seq<Hit>, h: Hit, id: string, p: nat)
    requires Best(hits, id, p) && (h.id != id || hits[p].rank <= h.rank)
    ensures Best(hits + [h], id, p)
  {
  }

  lemma BestMoves(hits: seq<Hit>, h: Hit)
    requires forall q :: 0 <= q < |hits| && hits[q].id == h.id ==> h.rank < hits[q].rank
    ensures Best(hits + [h], h.id, |hits|)
  {
  }

  lemma {:induction false} NotMet(hits: seq<Hit>, k: nat, id: string)
    requires !Met(hits, id)
    ensures Score(hits, k, id) == 0.0
  {
    if hits != [] {
      var shorter := hits[..|hits| - 1];
      assert hits == shorter + [hits[|hits| - 1]];
      MetMore(shorter, hits[|hits| - 1], id);
      NotMet(shorter, k, id);
    }
  }

  lemma CountedIsRight(t: Tables, hits: seq<Hit>, h: Hit, k: nat)
    requires Right(t, hits, k)
    ensures Right(Counted(t, h, k), hits + [h], k)
  {
    hide KeepsBest, First, Score, InFirstOrder, Share, Met;
    var after, more := Counted(t, h, k), hits + [h];
    forall id ensures id in after.scores <==> Met(more, id) { MetMore(hits, h, id); }
    forall id | id in after.scores ensures after.scores[id] == Score(more, k, id) {
      ScoreMore(hits, h, k, id);
      if id !in t.scores { NotMet(hits, k, id); }
    }
    forall id | id in after.scores ensures KeepsBest(after, more, id) {
      if id in t.scores { BestOfKnown(t, hits, h, k, id); } else { BestOfNew(t, hits, h, k); }
    }
    OrderAfter(t, hits, h, k);
  }

  lemma ScoreMore(hits: seq<Hit>, h: Hit, k: nat, id: string)
    ensures Score(hits + [h], k, id) == Score(hits, k, id) + if h.id == id then Share(k, h.rank) else 0.0
  {
    assert (hits + [h])[..|hits|] == hits;
  }

  lemma BestOfKnown(t: Tables, hits: seq<Hit>, h: Hit, k: nat, id: string)
    requires t.scores.Keys == t.ranks.Keys == t.items.Keys && id in t.scores && KeepsBest(t, hits, id)
    ensures KeepsBest(Counted(t, h, k), hits + [h], id)
  {
    var more := hits + [h];
    var p: nat :| Best(hits, id, p) && t.ranks[id] == hits[p].rank && t.items[id] == hits[p].item;
    if id == h.id && h.rank < t.ranks[id] {
      BestMoves(hits, h);
      assert more[|hits|] == h;
    } else {
      BestStays(hits, h, id, p);
      assert more[p] == hits[p];
    }
  }

  lemma BestOfNew(t: Tables, hits: seq<Hit>, h: Hit, k: nat)
    requires t.scores.Keys == t.ranks.Keys == t.items.Keys && h.id !in t.scores && !Met(hits, h.id)
    ensures KeepsBest(Counted(t, h, k), hits + [h], h.id)
  {
    BestMoves(hits, h);
    assert (hits + [h])[|hits|] == h;
  }

  lemma FirstMore(hits: seq<Hit>, h: Hit, id: string, p: nat)
    requires First(hits + [h], id, p)
    ensures if p < |hits| then First(hits, id, p) else h.id == id && !Met(hits, id)
  {
    if p < |hits| { assert (hits + [h])[p] == hits[p]; }
    forall q | 0 <= q < p && q < |hits| ensures hits[q].id != id { assert (hits + [h])[q] == hits[q]; }
  }

  lemma OrderAfter(t: Tables, hits: seq<Hit>, h: Hit, k: nat)
    requires Right(t, hits, k)
    ensures InFirstOrder(Counted(t, h, k).order, hits + [h])
  {
    hide First, Best, Score, Share;
    var order, more := Counted(t, h, k).order, hits + [h];
    forall i, j | 0 <= i < j < |order| ensures MetBefore(more, order[i], order[j]) {
      assert order[i] in t.order;
      if j < |t.order| {
        assert order[j] in t.order && MetBefore(hits, order[i], order[j]);
        forall p: nat, q: nat | First(more, order[i], p) && First(more, order[j], q) ensures p < q {
          FirstMore(hits, h, order[i], p);
          FirstMore(hits, h, order[j], q);
        }
      } else {
        forall p: nat, q: nat | First(more, order[i], p) && First(more, order[j], q) ensures p < q {
          FirstMore(hits, h, order[i], p);
          FirstMore(hits, h, order[j], q);
          FirstInRange(more, order[i], p);
          FirstInRange(more, order[j], q);
          NotYet(t, hits, h, k, q, order[j]);
        }
      }
    }
  }

  lemma FirstInRange(hits: seq<Hit>, id: string, q: nat)
    requires First(hits, id, q)
    ensures q < |hits| && hits[q].id == id
  {
  }

  lemma NotYet(t: Tables, hits: seq<Hit>, h: Hit, k: nat, q: nat, id: string)
    requires Right(t, hits, k) && id !in t.scores && q < |hits + [h]| && (hits + [h])[q].id == id
    ensures q == |hits|
  {
    if q < |hits| { assert hits[q].id == id; assert Met(hits, id); }
  }

  // ── the final sort ─────────────────────────────────────────────────────────

  /** After everything that scores at least as high. */
  function Inserted(sorted: seq<string>, id: string, scores: map<string, real>): (r: seq<string>)
    requires id in scores && forall x :: x in sorted ==> x in scores
    ensures multiset(r) == multiset(sorted) + multiset{id}
    ensures forall x :: x in r ==> x == id || x in sorted
  {
    if sorted == [] then [id]
    else
      assert sorted == sorted[..|sorted| - 1] + [sorted[|sorted| - 1]];
      if scores[sorted[|sorted| - 1]] >= scores[id] then sorted + [id]
      else Inserted(sorted[..|sorted| - 1], id, scores) + [sorted[|sorted| - 1]]
  }

  /** Python's sorted(..., reverse=True): descending, equal scores in their given order. */
  function SortedByScore(order: seq<string>, scores: map<string, real>): (r: seq<string>)
    requires forall id :: id in order ==> id in scores
    ensures multiset(r) == multiset(order)
    ensures forall id :: id in r ==> id in order
  {
    if order == [] then [] else
      var n := |order| - 1;
      assert order == order[..n] + [order[n]];
      Inserted(SortedByScore(order[..n], scores), order[n], scores)
  }

  /** x comes before y: it scores more, or the same and was met first. */
  ghost predicate Ahead(x: string, y: string, scores: map<string, real>, hits: seq<Hit>)
    requires x in scores && y in scores
  {
    scores[x] > scores[y]
    || (scores[x] == scores[y] && MetBefore(hits, x, y))
  }

  ghost predicate Ranked(ids: seq<string>, scores: map<string, real>, hits: seq<Hit>) {
    && (forall i :: 0 <= i < |ids| ==> ids[i] in scores)
    && forall i, j :: 0 <= i < j < |ids| ==> Ahead(ids[i], ids[j], scores, hits)
  }

  ghost predicate Later(id: string, ids: seq<string>, hits: seq<Hit>) {
    forall x :: x in ids ==> MetBefore(hits, x, id)
  }

  lemma {:induction false} InsertedRanked(sorted: seq<string>, id: string, scores: map<string, real>, hits: seq<Hit>)
    requires id in scores && (forall x :: x in sorted ==> x in scores) && Ranked(sorted, scores, hits)
             && Later(id, sorted, hits)
    ensures Ranked(Inserted(sorted, id, scores), scores, hits)
  {
    hide Ahead, Later, MetBefore;
    if sorted != [] {
      var n := |sorted| - 1;
      var last, shorter := sorted[n], sorted[..n];
      if scores[last] >= scores[id] {
        forall i | 0 <= i <= n ensures Ahead(sorted[i], id, scores, hits) {
          StaysAhead(sorted, i, id, scores, hits);
        }
      } else {
        LaterThanFewer(id, sorted, hits);
        InsertedRanked(shorter, id, scores, hits);
        var longer := Inserted(shorter, id, scores);
        hide Inserted;
        forall i | 0 <= i < |longer| ensures Ahead(longer[i], last, scores, hits) {
          assert longer[i] in longer;
          if longer[i] in shorter {
            var j :| 0 <= j < n && sorted[j] == longer[i];
            assert Ahead(sorted[j], sorted[n], scores, hits);
          } else {
            Outscores(id, last, scores, hits);
          }
        }
        RankedMore(longer, last, scores, hits);
      }
    }
  }

  lemma RankedMore(ids: seq<string>, last: string, scores: map<string, real>, hits: seq<Hit>)
    requires Ranked(ids, scores, hits) && last in scores
    requires forall i :: 0 <= i < |ids| ==> Ahead(ids[i], last, scores, hits)
    ensures Ranked(ids + [last], scores, hits)
  {
  }

  lemma StaysAhead(sorted: seq<string>, i: nat, id: string, scores: map<string, real>, hits: seq<Hit>)
    requires id in scores && Ranked(sorted, scores, hits) && Later(id, sorted, hits)
    requires i < |sorted| && scores[sorted[|sorted| - 1]] >= scores[id]
    ensures Ahead(sorted[i], id, scores, hits)
  {
    hide MetBefore;
    if i < |sorted| - 1 { assert Ahead(sorted[i], sorted[|sorted| - 1], scores, hits); }
    assert sorted[i] in sorted;
  }

  lemma LaterThanFewer(id: string, sorted: seq<string>, hits: seq<Hit>)
    requires sorted != [] && Later(id, sorted, hits)
    ensures Later(id, sorted[..|sorted| - 1], hits)
  {
    assert forall x :: x in sorted[..|sorted| - 1] ==> x in sorted;
  }

  lemma Outscores(x: string, y: string, scores: map<string, real>, hits: seq<Hit>)
    requires x in scores && y in scores && scores[x] > scores[y]
    ensures Ahead(x, y, scores, hits)
  {
  }

  lemma {:induction false} SortedIsRanked(order: seq<string>, scores: map<string, real>, hits: seq<Hit>)
    requires (forall id :: id in order ==> id in scores) && InFirstOrder(order, hits)
    ensures (forall id :: id in SortedByScore(order, scores) ==> id in scores)
            && Ranked(SortedByScore(order, scores), scores, hits)
  {
    hide First, Ahead;
    if order != [] {
      var n := |order| - 1;
      SortedIsRanked(order[..n], scores, hits);
      var sorted := SortedByScore(order[..n], scores);
      forall x | x in sorted ensures MetBefore(hits, x, order[n]) {
        var i :| 0 <= i < n && order[i] == x;
      }
      InsertedRanked(sorted, order[n], scores, hits);
    }
  }

  // ── the fusion ─────────────────────────────────────────────────────────────

  /** Each document once, with its exact score and its best hit, by descending score and first appearance. */
  ghost predicate IsFusion(out: seq<Fused>, hits: seq<Hit>, k: nat) {
    && (forall id :: Met(hits, id) <==> exists i :: 0 <= i < |out| && out[i].id == id)
    && (forall i :: 0 <= i < |out| ==> out[i].score == Score(hits, k, out[i].id))
    && (forall i :: 0 <= i < |out| ==> Represents(hits, out[i].id, out[i].item))
    && (forall i, j :: 0 <= i < j < |out| ==> out[i].score >= out[j].score)
    && (forall i, j :: 0 <= i < j < |out| && out[i].score == out[j].score ==> MetBefore(hits, out[i].id, out[j].id))
  }

  method ReciprocalRankFusion(lists: seq<seq<Item>>, k: nat, hash: string -> string) returns (out: seq<Fused>)
    ensures IsFusion(out, Hits(lists, hash), k)
    ensures forall i :: 0 <= i < |out| ==> out[i].score == ListsGive(lists, k, out[i].id, hash)
    ensures forall i, j :: 0 <= i < j < |out| ==> out[i].id != out[j].id
  {
    hide Right, Hits, Counted, IsFusion, ListsGive, DocId, SortedByScore;
    var t := Tables([], map[], map[], map[]);
    NothingCounted(k, hash);
    assert lists[..0] == [];
    ghost var hits: seq<Hit> := [];
    for l := 0 to |lists|
      invariant hits == Hits(lists[..l], hash) && Right(t, hits, k)
    {
      ghost var before := hits;
      for rank := 0 to |lists[l]|
        invariant before == Hits(lists[..l], hash) && hits == before + HitsOf(lists[l], hash)[..rank]
                  && Right(t, hits, k)
      {
        var item := lists[l][rank];
        var hit := Hit(DocId(item, hash), rank, item);
        CountedIsRight(t, hits, hit, k);
        SameKeys(t, hits, k);
        t := Counted(t, hit, k);
        assert HitsOf(lists[l], hash)[..rank + 1] == HitsOf(lists[l], hash)[..rank] + [hit];
        hits := hits + [hit];
      }
      OneMoreList(lists, hash, l);
      assert HitsOf(lists[l], hash)[..|lists[l]|] == HitsOf(lists[l], hash);
    }
    assert lists[..|lists|] == lists;
    SameKeys(t, hits, k);
    var ids := SortedByScore(t.order, t.scores);
    out := [];
    for i := 0 to |ids|
      invariant |out| == i && forall j :: 0 <= j < i ==> out[j] == Fused(t.items[ids[j]], ids[j], t.scores[ids[j]])
    {
      assert ids[i] in ids;
      out := out + [Fused(t.items[ids[i]], ids[i], t.scores[ids[i]])];
    }
    FusionHolds(t, hits, k, ids, out);
    FusionSums(out, lists, k, hash);
  }

  lemma FusionSums(out: seq<Fused>, lists: seq<seq<Item>>, k: nat, hash: string -> string)
    requires IsFusion(out, Hits(lists, hash), k)
    ensures forall i :: 0 <= i < |out| ==> out[i].score == ListsGive(lists, k, out[i].id, hash)
  {
    hide Hits, Score, Represents, MetBefore, Met;
    forall i | 0 <= i < |out| ensures out[i].score == ListsGive(lists, k, out[i].id, hash) {
      ScoreIsSum(lists, k, out[i].id, hash);
    }
  }

  lemma NothingCounted(k: nat, hash: string -> string)
    ensures Right(Tables([], map[], map[], map[]), [], k) && Hits([], hash) == []
  {
  }

  lemma OneMoreList(lists: seq<seq<Item>>, hash: string -> string, l: nat)
    requires l < |lists|
    ensures Hits(lists[..l + 1], hash) == Hits(lists[..l], hash) + HitsOf(lists[l], hash)
  {
    assert lists[..l + 1][..l] == lists[..l];
  }

  lemma SameKeys(t: Tables, hits: seq<Hit>, k: nat)
    requires Right(t, hits, k)
    ensures t.scores.Keys == t.ranks.Keys == t.items.Keys
    ensures forall id :: id in t.order ==> id in t.scores
  {
  }

  /** Row i of the output is read off the tables for ids[i]. */
  ghost predicate ReadOff(t: Tables, ids: seq<string>, out: seq<Fused>) {
    |out| == |ids| && forall i :: 0 <= i < |ids| ==>
      ids[i] in t.scores && ids[i] in t.items && out[i] == Fused(t.items[ids[i]], ids[i], t.scores[ids[i]])
  }

  lemma FusionHolds(t: Tables, hits: seq<Hit>, k: nat, ids: seq<string>, out: seq<Fused>)
    requires Right(t, hits, k) && (forall id :: id in t.order ==> id in t.scores)
             && ids == SortedByScore(t.order, t.scores)
    requires ReadOff(t, ids, out)
    ensures IsFusion(out, hits, k)
    ensures forall i, j :: 0 <= i < j < |out| ==> out[i].id != out[j].id
  {
    hide First, Represents, Score, Met, Right, MetBefore, ReadOff, SortedByScore;
    OrderIsFirst(t, hits, k);
    SortedIsRanked(t.order, t.scores, hits);
    SameElements(ids, t.order);
    RowsAreRight(t, hits, k, ids, out);
    RowsAreRanked(t, hits, k, ids, out);
  }

  lemma OrderIsFirst(t: Tables, hits: seq<Hit>, k: nat)
    requires Right(t, hits, k)
    ensures InFirstOrder(t.order, hits)
  {
  }

  lemma RowsAreRight(t: Tables, hits: seq<Hit>, k: nat, ids: seq<string>, out: seq<Fused>)
    requires Right(t, hits, k) && ReadOff(t, ids, out) && forall id :: id in ids <==> id in t.order
    ensures forall id :: Met(hits, id) <==> exists i :: 0 <= i < |out| && out[i].id == id
    ensures forall i :: 0 <= i < |out| ==> out[i].score == Score(hits, k, out[i].id)
    ensures forall i :: 0 <= i < |out| ==> Represents(hits, out[i].id, out[i].item)
  {
    hide First, KeepsBest, Represents, Score, Met, InFirstOrder;
    forall id ensures Met(hits, id) <==> exists i :: 0 <= i < |out| && out[i].id == id {
      if id in ids { var i :| 0 <= i < |ids| && ids[i] == id; assert out[i].id == id; }
    }
    forall i | 0 <= i < |out| ensures Represents(hits, out[i].id, out[i].item) {
      KeptRepresents(t, hits, ids[i]);
    }
  }

  lemma KeptRepresents(t: Tables, hits: seq<Hit>, id: string)
    requires KeepsBest(t, hits, id)
    ensures Represents(hits, id, t.items[id])
  {
  }

  lemma RowsAreRanked(t: Tables, hits: seq<Hit>, k: nat, ids: seq<string>, out: seq<Fused>)
    requires Right(t, hits, k) && ReadOff(t, ids, out) && Ranked(ids, t.scores, hits)
    ensures forall i, j :: 0 <= i < j < |out| ==> out[i].score >= out[j].score && out[i].id != out[j].id
    ensures forall i, j :: 0 <= i < j < |out| && out[i].score == out[j].score ==> MetBefore(hits, out[i].id, out[j].id)
  {
    hide First, Best, Score, Met, InFirstOrder, MetBefore, KeepsBest;
    forall i, j | 0 <= i < j < |out|
      ensures out[i].score >= out[j].score && out[i].id != out[j].id
      ensures out[i].score == out[j].score ==> MetBefore(hits, out[i].id, out[j].id)
    {
      assert Ahead(ids[i], ids[j], t.scores, hits);
      NotAheadOfItself(ids[i], t.scores, hits);
    }
  }

  lemma SameElements(a: seq<string>, b: seq<string>)
    requires multiset(a) == multiset(b)
    ensures forall id :: id in a <==> id in b
  {
    forall id ensures id in a <==> id in b {
      assert id in a <==> id in multiset(a);
      assert id in b <==> id in multiset(b);
    }
  }

  lemma NotAheadOfItself(id: string, scores: map<string, real>, hits: seq<Hit>)
    requires id in scores && Met(hits, id)
    ensures !Ahead(id, id, scores, hits)
  {
    var p := FirstHit(hits, id);
  }

  lemma {:induction false} FirstHit(hits: seq<Hit>, id: string) returns (p: nat)
    requires Met(hits, id)
    ensures First(hits, id, p)
    decreases |hits|
  {
    var q :| 0 <= q < |hits| && hits[q].id == id;
    p := q;
    if Met(hits[..q], id) {
      p := FirstHit(hits[..q], id);
    } else {
      assert forall r :: 0 <= r < q ==> hits[..q][r] == hits[r];
    }
  }
}
