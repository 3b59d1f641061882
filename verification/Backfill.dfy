/** Building the contract's generation: keyset pages, one upsert and one checkpoint per page, then GC. */
module Keyset {
  import opened Common

  predicate Beyond(id: Id, last: Option<Id>) { last.None? || id > last.value }

  /** The ids after `lo`, up to and including `hi`; nothing while `hi` is None. */
  predicate Within(id: Id, lo: Option<Id>, hi: Option<Id>) {
    Beyond(id, lo) && hi.Some? && id <= hi.value
  }

  function Stretch(ids: set<Id>, lo: Option<Id>, hi: Option<Id>): set<Id> {
    set id | id in ids && Within(id, lo, hi)
  }

  function Rest(ids: set<Id>, last: Option<Id>): set<Id> {
    set id | id in ids && Beyond(id, last)
  }

  /** SELECT ... WHERE id > last ORDER BY id LIMIT batch: one page, never an offset. */
  function Page(ids: set<Id>, last: Option<Id>, batch: nat): seq<Id> {
    var rest := Sorted(Rest(ids, last));
    if |rest| <= batch then rest else rest[..batch]
  }

  lemma AscendingPrefix(rest: seq<Id>, n: nat)
    requires Ascending(rest) && 0 < n <= |rest|
    ensures Ascending(rest[..n])
    ensures forall id :: id in rest[..n] <==> id in rest && id <= rest[n - 1]
  {
    forall id ensures id in rest[..n] <==> id in rest && id <= rest[n - 1] {
      if id in rest && id <= rest[n - 1] {
        var i :| 0 <= i < |rest| && rest[i] == id;
        assert rest[..n][i] == id;
      }
    }
  }

  lemma PageElements(ids: set<Id>, last: Option<Id>, batch: nat)
    requires batch >= 1
    ensures Page(ids, last, batch) == [] <==> Rest(ids, last) == {}
    ensures Ascending(Page(ids, last, batch))
    ensures Page(ids, last, batch) != [] ==>
              var hi := Page(ids, last, batch)[|Page(ids, last, batch)| - 1];
              hi in Rest(ids, last) && forall id :: id in Page(ids, last, batch) <==> id in Rest(ids, last) && id <= hi
  {
    hide Sorted, Rest, Beyond;
    var rest := Sorted(Rest(ids, last));
    if |rest| > 0 {
      var n := if |rest| <= batch then |rest| else batch;
      assert rest[..|rest|] == rest;
      assert Page(ids, last, batch) == rest[..n];
      AscendingPrefix(rest, n);
      assert rest[n - 1] in rest;
    } else {
      assert |Rest(ids, last)| == 0;
    }
  }

  /** A page is the next stretch of the table, whole: no id between its ends is skipped, none repeated. */
  lemma PageIsNextStretch(ids: set<Id>, last: Option<Id>, batch: nat)
    requires batch >= 1
    ensures Ascending(Page(ids, last, batch))
    ensures Page(ids, last, batch) == [] <==> Rest(ids, last) == {}
    ensures Page(ids, last, batch) != [] ==>
              var hi := Page(ids, last, batch)[|Page(ids, last, batch)| - 1];
              && (forall id :: id in Page(ids, last, batch) <==> id in ids && Within(id, last, Some(hi)))
              && Beyond(hi, last)
              && Rest(ids, Some(hi)) == Rest(ids, last) - Elements(Page(ids, last, batch))
              && Rest(ids, Some(hi)) < Rest(ids, last)
  {
    hide Page, Sorted, Ascending;
    PageElements(ids, last, batch);
    var page := Page(ids, last, batch);
    if page != [] {
      var hi := page[|page| - 1];
      assert hi !in Rest(ids, Some(hi));
    }
  }

  lemma PageSize(ids: set<Id>, last: Option<Id>, batch: nat)
    requires batch >= 1 && Page(ids, last, batch) != []
    ensures var hi := Page(ids, last, batch)[|Page(ids, last, batch)| - 1];
            |Rest(ids, last)| == |Page(ids, last, batch)| + |Rest(ids, Some(hi))|
  {
    hide Page, Sorted;
    PageIsNextStretch(ids, last, batch);
    PageElements(ids, last, batch);
    hide Rest, Within, Elements;
    var page := Page(ids, last, batch);
    var hi := page[|page| - 1];
    AscendingSize(page);
    assert Elements(page) <= Rest(ids, last);
    assert Rest(ids, last) == Elements(page) + Rest(ids, Some(hi));
  }

  /** Where a scan from `lo` stands after n pages. */
  function Boundary(ids: set<Id>, lo: Option<Id>, batch: nat, n: nat): Option<Id> {
    if n == 0 then lo else
      var last := Boundary(ids, lo, batch, n - 1);
      var page := Page(ids, last, batch);
      if page == [] then last else Some(page[|page| - 1])
  }

  /** The first n pages all have rows. */
  ghost predicate PagesLeft(ids: set<Id>, lo: Option<Id>, batch: nat, n: nat) {
    forall m: nat :: m < n ==> Page(ids, Boundary(ids, lo, batch, m), batch) != []
  }

  lemma OneMorePage(ids: set<Id>, lo: Option<Id>, batch: nat, n: nat)
    requires PagesLeft(ids, lo, batch, n) && Page(ids, Boundary(ids, lo, batch, n), batch) != []
    ensures var page := Page(ids, Boundary(ids, lo, batch, n), batch);
            PagesLeft(ids, lo, batch, n + 1) && Boundary(ids, lo, batch, n + 1) == Some(page[|page| - 1])
  {
    hide Page;
  }

  /** All pages read one after the other. */
  function Scan(ids: set<Id>, last: Option<Id>, batch: nat): seq<Id>
    requires batch >= 1
    decreases Rest(ids, last)
  {
    var page := Page(ids, last, batch);
    if page == [] then [] else
      PageIsNextStretch(ids, last, batch);
      page + Scan(ids, Some(page[|page| - 1]), batch)
  }

  lemma JoinAscending(page: seq<Id>, tail: seq<Id>)
    requires Ascending(page) && Ascending(tail)
    requires forall x, y :: x in page && y in tail ==> x < y
    ensures Ascending(page + tail)
  {
    var all := page + tail;
    forall i, j | 0 <= i < j < |all| ensures all[i] < all[j] {
      if i < |page| <= j {
        assert page[i] in page && tail[j - |page|] in tail;
      }
    }
  }

  lemma PageThenRest(page: seq<Id>, all: set<Id>, remaining: set<Id>)
    requires Ascending(page)
    requires remaining == all - Elements(page)
    requires forall x :: x in page ==> x in all
    requires forall x, y :: x in page && y in remaining ==> x < y
    ensures page + Sorted(remaining) == Sorted(all)
  {
    var tail := Sorted(remaining);
    forall x, y | x in page && y in tail ensures x < y { assert y in remaining; }
    JoinAscending(page, tail);
    forall x ensures x in page + tail <==> x in Sorted(all) {
      assert x in page + tail <==> x in page || x in remaining;
    }
    AscendingUnique(page + tail, Sorted(all));
  }

  /** Whatever the batch size, the scan visits each remaining row exactly once, in id order. */
  lemma {:induction false} ScanVisitsEachOnce(ids: set<Id>, last: Option<Id>, batch: nat)
    requires batch >= 1
    ensures Scan(ids, last, batch) == Sorted(Rest(ids, last))
    decreases Rest(ids, last)
  {
    hide Sorted, Page;
    PageIsNextStretch(ids, last, batch);
    var page := Page(ids, last, batch);
    if page == [] {
      assert |Sorted(Rest(ids, last))| == 0;
    } else {
      var hi := page[|page| - 1];
      ScanVisitsEachOnce(ids, Some(hi), batch);
      forall x, y | x in page && y in Rest(ids, Some(hi)) ensures x < y { assert Within(x, last, Some(hi)); }
      PageThenRest(page, Rest(ids, last), Rest(ids, Some(hi)));
    }
  }
}

module Backfill {
  import opened Common
  import opened Manifest
  import opened Outbox
  import opened Eligibility
  import opened Audit
  import opened Verify
  import opened Keyset

  datatype Intent = Intent(kind: Kind, entity: Id, revision: int, operation: Operation, generation: string,
                           status: Status)

  type CheckpointKey = (string, Kind)

  function CheckpointFor(kind: Kind, c: Contract): CheckpointKey { (GenerationName(kind, c), kind) }

  /** The point the production payload code writes for a row: a chunk at revision 0 is written as revision 1. */
  function FreshPoint(kind: Kind, id: Id, record: Record, c: Contract): Payload {
    match kind
    case Memory => Payload(Some(id), TenantText(record), Number(record.revision), Some(c.canonical), Some(c.token))
    case Chunk => Payload(Some(id), TenantText(record), Number(if record.revision == 0 then 1 else record.revision),
                          Some(c.canonical), None)
  }

  /** The generation a full, uninterrupted build leaves behind. */
  function Built(kind: Kind, rows: map<Id, Record>, c: Contract): Collection {
    map id | id in Eligible(rows) :: FreshPoint(kind, id, rows[id], c)
  }

  /** The collection after upserting the eligible rows in (lo, hi]. */
  function Written(points: Collection, kind: Kind, rows: map<Id, Record>, c: Contract, lo: Option<Id>,
                   hi: Option<Id>): Collection {
    map id | id in points.Keys + Eligible(rows) && (id in points || Within(id, lo, hi)) ::
      if id in Eligible(rows) && Within(id, lo, hi) then FreshPoint(kind, id, rows[id], c) else points[id]
  }

  /** Points of rows that are not eligible deleted. */
  function Collected(points: Collection, rows: map<Id, Record>): Collection {
    map id | id in points && id in Eligible(rows) :: points[id]
  }

  /** The points an upsert of one page carries. */
  function PagePoints(kind: Kind, page: seq<Id>, rows: map<Id, Record>, c: Contract): Collection {
    map id | id in page && id in Eligible(rows) :: FreshPoint(kind, id, rows[id], c)
  }

  lemma PageExtendsWritten(points: Collection, kind: Kind, rows: map<Id, Record>, c: Contract,
                           lo: Option<Id>, last: Option<Id>, page: seq<Id>, hi: Id)
    requires lo.Some? ==> last.Some? && lo.value <= last.value
    requires last.None? ==> lo.None?
    requires last.Some? ==> last.value < hi
    requires forall id :: id in page <==> id in rows && Within(id, last, Some(hi))
    ensures Written(points, kind, rows, c, lo, last) + PagePoints(kind, page, rows, c)
              == Written(points, kind, rows, c, lo, Some(hi))
  {
    var before, after := Written(points, kind, rows, c, lo, last), Written(points, kind, rows, c, lo, Some(hi));
    var upserted := PagePoints(kind, page, rows, c);
    forall id | id in Eligible(rows) ensures Within(id, lo, Some(hi)) <==> Within(id, lo, last) || id in page {
    }
    assert (before + upserted).Keys == after.Keys;
  }

  /** A build that started at `lo` and reached the end of the table keeps the eligible points up to `lo`
      as they were and holds a fresh point for every eligible row after it; nothing else survives. */
  function Swept(points: Collection, kind: Kind, rows: map<Id, Record>, c: Contract, lo: Option<Id>): Collection {
    map id | id in Eligible(rows) && (Beyond(id, lo) || id in points) ::
      if Beyond(id, lo) then FreshPoint(kind, id, rows[id], c) else points[id]
  }

  lemma EndOfTableIsSwept(points: Collection, kind: Kind, rows: map<Id, Record>, c: Contract, lo: Option<Id>,
                          last: Option<Id>)
    requires Rest(rows.Keys, last) == {}
    requires last.None? ==> lo.None?
    ensures Collected(Written(points, kind, rows, c, lo, last), rows) == Swept(points, kind, rows, c, lo)
  {
    forall id | id in Eligible(rows) ensures Within(id, lo, last) <==> Beyond(id, lo) {
      assert id !in Rest(rows.Keys, last);
    }
  }

  /** From the start of the table, whatever was in the collection, the result is the eligible rows. */
  lemma FullSweepIsBuilt(points: Collection, kind: Kind, rows: map<Id, Record>, c: Contract)
    ensures Swept(points, kind, rows, c, None) == Built(kind, rows, c)
  {
  }

  /** A resumed build equals a full one exactly when every eligible row up to its start already has its
      fresh point: the checkpoint itself proves nothing about rows that changed after it was written. */
  lemma ResumeIsFaithfulIff(points: Collection, kind: Kind, rows: map<Id, Record>, c: Contract, lo: Option<Id>)
    ensures Swept(points, kind, rows, c, lo) == Built(kind, rows, c) <==>
            forall id :: id in Eligible(rows) && !Beyond(id, lo) ==> id in points && points[id] == FreshPoint(kind, id, rows[id], c)
  {
    var swept, built := Swept(points, kind, rows, c, lo), Built(kind, rows, c);
    if swept == built {
      forall id | id in Eligible(rows) && !Beyond(id, lo)
        ensures id in points && points[id] == FreshPoint(kind, id, rows[id], c)
      {
        assert id in built && id in swept && swept[id] == built[id];
      }
    }
  }

  /** What a full build is, over the tables: for each row that is served, and for no other, a point under the row's name,
      its owner and the contract; a chunk at revision 0 goes by 1. */
  lemma BuiltMeans(kind: Kind, sql: Sql, c: Contract)
    ensures var built := Built(kind, SqlRows(sql, kind), c);
            && (forall id :: id in built <==> Served(sql, kind, id))
            && (forall id :: id in built ==>
                  && built[id].identity == Some(id) && built[id].tenant == OwnerOf(sql, kind, id)
                  && built[id].fingerprint == Some(c.canonical)
                  && (kind == Memory ==> built[id].token == Some(c.token))
                  && built[id].revision == Number(if kind == Chunk && sql.chunks[id].revision == 0 then 1
                                                  else RevisionOf(sql, kind, id)))
  {
    var rows := SqlRows(sql, kind);
    forall id
      ensures id in Eligible(rows) <==> Served(sql, kind, id)
      ensures Served(sql, kind, id) ==> rows[id] == Record(RevisionOf(sql, kind, id), None, Some(OwnerOf(sql, kind, id)))
    {
      EligibleIsServed(sql, kind, id);
    }
    hide SqlRows;
  }

  /** A full build passes the audit exactly when no eligible row is at revision 0. */
  lemma BuiltPassesIff(kind: Kind, rows: map<Id, Record>, c: Contract)
    requires RealContract(c)
    ensures ReadsExact(kind, Built(kind, rows, c), rows, c)
            <==> forall id :: id in Eligible(rows) ==> rows[id].revision != 0
  {
    var built := Built(kind, rows, c);
    if ReadsExact(kind, built, rows, c) {
      forall id | id in Eligible(rows) ensures rows[id].revision != 0 {
        assert id in built && RevisionRead(built[id].revision) == Some(rows[id].revision);
      }
    }
  }
}
