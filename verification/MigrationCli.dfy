/** The offline migration commands over one install: expand, backfill and cutover. */
module MigrationCli {
  import opened Common
  import opened Manifest
  import opened Ladder
  import opened Eligibility
  import opened Audit
  import opened Verify
  import opened Keyset
  import opened Backfill
  import opened Outbox

  // ── expand ────────────────────────────────────────────────────────────────

  /** SQLite runs the shared ladder; a server database has none and gets the rows written directly. */
  function Expanded(sqlite: bool, db: Db, c: Contract, probe: Probe): Option<Db> {
    if !sqlite then Some(db.(rows := Activated(db.rows, c, false)))
    else if Accepts(db, probe) then Some(Upgraded(db, c))
    else None
  }

  /** After an expand the target rows carry the current token, except that a SQLite install already at
      version 3 is left as it was: there the row must have been current before. */
  lemma ExpandNamesTargetIff(sqlite: bool, db: Db, c: Contract, probe: Probe, kind: Kind)
    requires Expanded(sqlite, db, c, probe).Some?
    ensures ManifestCurrent(kind, Expanded(sqlite, db, c, probe).value.rows, c) <==>
              (sqlite && db.version == SCHEMA_VERSION ==> ManifestCurrent(kind, db.rows, c))
  {
  }

  // ── the intents a flip retires ─────────────────────────────────────────────

  predicate Stale(i: Intent, kind: Kind, generation: string) {
    i.kind == kind && i.status == Pending && i.generation != generation
  }

  /** UPDATE ... SET status = 'blocked' for one kind. */
  function BlockKind(outbox: seq<Intent>, kind: Kind, generation: string): (r: seq<Intent>)
    ensures |r| == |outbox|
    ensures forall i :: 0 <= i < |outbox| ==>
              r[i] == if Stale(outbox[i], kind, generation) then outbox[i].(status := Blocked) else outbox[i]
  {
    seq(|outbox|, i requires 0 <= i < |outbox| =>
      if Stale(outbox[i], kind, generation) then outbox[i].(status := Blocked) else outbox[i])
  }

  /** Both kinds at once: every pending intent that names another generation than its kind's target. */
  function BlockedOutbox(outbox: seq<Intent>, c: Contract): (r: seq<Intent>)
    ensures |r| == |outbox|
  {
    seq(|outbox|, i requires 0 <= i < |outbox| =>
      if Stale(outbox[i], outbox[i].kind, GenerationName(outbox[i].kind, c)) then outbox[i].(status := Blocked) else outbox[i])
  }

  /** How many intents of a kind went from pending to blocked between two states of the outbox. */
  function Moved(before: seq<Intent>, after: seq<Intent>, kind: Kind): nat
    requires |before| == |after|
  {
    if before == [] then 0 else
      (if before[0].kind == kind && before[0].status == Pending && after[0].status == Blocked then 1 else 0)
      + Moved(before[1..], after[1..], kind)
  }

  function CountStale(outbox: seq<Intent>, kind: Kind, generation: string): nat {
    if outbox == [] then 0 else
      (if Stale(outbox[0], kind, generation) then 1 else 0) + CountStale(outbox[1..], kind, generation)
  }

  lemma {:induction false} StaleAreTheMoved(outbox: seq<Intent>, c: Contract, kind: Kind)
    ensures CountStale(outbox, kind, GenerationName(kind, c)) == Moved(outbox, BlockedOutbox(outbox, c), kind)
  {
    if outbox != [] {
      StaleAreTheMoved(outbox[1..], c, kind);
      assert BlockedOutbox(outbox, c)[1..] == BlockedOutbox(outbox[1..], c);
    }
  }

  /** Blocking one kind leaves the other kind's stale intents to be counted and blocked as before. */
  lemma {:induction false} KindsBlockApart(outbox: seq<Intent>, g: string, h: string)
    ensures CountStale(BlockKind(outbox, Memory, g), Chunk, h) == CountStale(outbox, Chunk, h)
  {
    if outbox != [] {
      KindsBlockApart(outbox[1..], g, h);
      assert BlockKind(outbox, Memory, g)[1..] == BlockKind(outbox[1..], Memory, g);
    }
  }

  lemma BlockingKindByKind(outbox: seq<Intent>, c: Contract)
    ensures BlockKind(BlockKind(outbox, Memory, GenerationName(Memory, c)), Chunk, GenerationName(Chunk, c))
              == BlockedOutbox(outbox, c)
  {
    var one := BlockKind(outbox, Memory, GenerationName(Memory, c));
    var two := BlockKind(one, Chunk, GenerationName(Chunk, c));
    forall i | 0 <= i < |outbox| ensures two[i] == BlockedOutbox(outbox, c)[i] {
      match outbox[i].kind
      case Memory =>
      case Chunk => assert one[i] == outbox[i];
    }
  }

  /** After a flip no pending intent names a generation that is not served, and nothing else changed. */
  lemma FlipRetiresExactlyTheStale(outbox: seq<Intent>, c: Contract, i: nat)
    requires i < |outbox|
    ensures BlockedOutbox(outbox, c)[i].status == Pending ==>
              BlockedOutbox(outbox, c)[i].generation == GenerationName(outbox[i].kind, c)
    ensures outbox[i].status != Pending || outbox[i].generation == GenerationName(outbox[i].kind, c) ==>
              BlockedOutbox(outbox, c)[i] == outbox[i]
    ensures BlockedOutbox(outbox, c)[i].(status := outbox[i].status) == outbox[i]
  {
  }

  /** A kind is green: its target row is current and the audit of its generation has no finding. */
  ghost predicate Green(kind: Kind, sql: Sql, rows: Rows, collections: map<string, Collection>, c: Contract) {
    ManifestCurrent(kind, rows, c) && ReadsExact(kind, Points(collections, GenerationName(kind, c)), SqlRows(sql, kind), c)
  }

  /** The audit of a kind ends with an exception: it has a manifest row, and a point of an eligible row whose revision field
      cannot be read. */
  ghost predicate AuditBreaks(kind: Kind, sql: Sql, rows: Rows, collections: map<string, Collection>, c: Contract) {
    Target(kind, c) in rows
    && exists id :: id in Points(collections, GenerationName(kind, c))
                    && Breaks(id, Points(collections, GenerationName(kind, c))[id], SqlRows(sql, kind))
  }

  // ── the commands ───────────────────────────────────────────────────────────

  /** What the store answers to one upsert. A rejected upsert may still have written some of its points. */
  datatype StoreAnswer = Acked | Rejected(landed: set<Id>)

  datatype BackfillReport = BackfillReport(complete: bool, batches: nat, upserted: nat, excluded: nat,
                                           skippedUnowned: nat,
                                           gcDeleted: nat, lastId: Option<Id>, resumedFrom: Option<Id>)

  datatype BackfillOutcome = Ran(report: BackfillReport) | BackfillRefused | LadderRaised

  datatype CutoverOutcome = Flipped(blockedMemory: nat, blockedChunk: nat) | NeedsYes | VerifyFailed | AuditBroke

  function Points(collections: map<string, Collection>, generation: string): Collection {
    if generation in collections then collections[generation] else map[]
  }

  datatype PageStep = Exhausted
                    | Halted(skipped: nat, excluded: nat)
                    | Advanced(hi: Id, upserted: nat, skipped: nat, excluded: nat)

  /** The id a scan got to: its last checkpoint, or where it started. */
  function Reached(report: BackfillReport): Option<Id> {
    if report.lastId.None? then report.resumedFrom else report.lastId
  }

  /** What one run of backfill does to the generation it builds. A complete run replaces everything after its
      start and counts every row it scanned once. Any run leaves only eligible points, fresh ones or the ones it
      found, and the rows between its start and its last checkpoint are fresh. */
  ghost predicate Rebuilt(report: BackfillReport, kind: Kind, rows: map<Id, Record>, c: Contract, before: Collection,
                          after: Collection) {
    && (report.complete ==>
          && after == Swept(before, kind, rows, c, report.resumedFrom)
          && report.upserted + report.excluded + report.skippedUnowned == |Rest(rows.Keys, report.resumedFrom)|)
    && Patched(after, before, kind, rows, c)
    && FreshWithin(after, kind, rows, c, report.resumedFrom, report.lastId)
  }

  /** The generation after a scan that got so far, and its GC. */
  function AfterScan(before: Collection, kind: Kind, rows: map<Id, Record>, c: Contract, report: BackfillReport,
                     rejected: seq<Id>): Collection {
    Collected(Written(before, kind, rows, c, report.resumedFrom, Reached(report)) + PagePoints(kind, rejected, rows, c), rows)
  }

  /** No collection but g was created, dropped or changed. */
  ghost predicate OnlyAt(g: string, before: map<string, Collection>, after: map<string, Collection>) {
    && before.Keys - {g} == after.Keys - {g}
    && forall h :: h in before && h != g ==> h in after && after[h] == before[h]
  }

  /** Where a backfill starts: at its checkpoint when resuming and there is one, else at the beginning. */
  function Start(checkpoints: map<CheckpointKey, Id>, kind: Kind, c: Contract, resume: bool): Option<Id> {
    if resume && CheckpointFor(kind, c) in checkpoints then Some(checkpoints[CheckpointFor(kind, c)]) else None
  }

  method ReadRows(sql: Sql, kind: Kind) returns (rows: map<Id, Record>)
    ensures rows == SqlRows(sql, kind)
  {
    match kind
    case Memory => rows := MemoryRows(sql);
    case Chunk => rows := ChunkRows(sql);
  }

  /** The rows among these ids that are left out for want of an owner, and those left out for any other reason. */
  function Ownerless(rows: map<Id, Record>, ids: set<Id>): set<Id> {
    set id | id in ids && id in rows && rows[id].reason == Some(UnownedRow)
  }

  function LeftOut(rows: map<Id, Record>, ids: set<Id>): set<Id> {
    set id | id in ids && id in rows && rows[id].reason.Some? && rows[id].reason != Some(UnownedRow)
  }

  /** How many of these rows are eligible, how many ownerless and how many otherwise left out. */
  predicate Tallied(rows: map<Id, Record>, ids: set<Id>, eligible: nat, skipped: nat, excluded: nat) {
    eligible == |Eligible(rows) * ids| && skipped == |Ownerless(rows, ids)| && excluded == |LeftOut(rows, ids)|
  }

  lemma TallyTogether(rows: map<Id, Record>, a: set<Id>, b: set<Id>, e: nat, s: nat, x: nat, f: nat, t: nat, y: nat)
    requires a !! b && Tallied(rows, a, e, s, x) && Tallied(rows, b, f, t, y)
    ensures Tallied(rows, a + b, e + f, s + t, x + y)
  {
    assert Ownerless(rows, a + b) == Ownerless(rows, a) + Ownerless(rows, b);
    assert LeftOut(rows, a + b) == LeftOut(rows, a) + LeftOut(rows, b);
    assert Eligible(rows) * (a + b) == Eligible(rows) * a + Eligible(rows) * b;
  }

  lemma TallyOne(rows: map<Id, Record>, id: Id)
    requires id in rows
    ensures match rows[id].reason
            case None => Tallied(rows, {id}, 1, 0, 0)
            case Some(UnownedRow) => Tallied(rows, {id}, 0, 1, 0)
            case _ => Tallied(rows, {id}, 0, 0, 1)
  {
    match rows[id].reason
    case None =>
      assert Eligible(rows) * {id} == {id} && Ownerless(rows, {id}) == {} == LeftOut(rows, {id});
    case Some(UnownedRow) =>
      assert Eligible(rows) * {id} == {} == LeftOut(rows, {id}) && Ownerless(rows, {id}) == {id};
    case _ =>
      assert Eligible(rows) * {id} == {} == Ownerless(rows, {id}) && LeftOut(rows, {id}) == {id};
  }

  lemma TallyNone(rows: map<Id, Record>)
    ensures Tallied(rows, {}, 0, 0, 0)
  {
    assert Ownerless(rows, {}) == {} == LeftOut(rows, {});
  }

  lemma OneMoreElement(page: seq<Id>, i: nat)
    requires Ascending(page) && i < |page|
    ensures Elements(page[..i + 1]) == Elements(page[..i]) + {page[i]} && Elements(page[..i]) !! {page[i]}
  {
    assert page[..i + 1] == page[..i] + [page[i]];
  }

  lemma TallyNext(rows: map<Id, Record>, page: seq<Id>, i: nat, e: nat, s: nat, x: nat)
    requires Ascending(page) && i < |page| && page[i] in rows && Tallied(rows, Elements(page[..i]), e, s, x)
    ensures match rows[page[i]].reason
            case None => Tallied(rows, Elements(page[..i + 1]), e + 1, s, x)
            case Some(UnownedRow) => Tallied(rows, Elements(page[..i + 1]), e, s + 1, x)
            case _ => Tallied(rows, Elements(page[..i + 1]), e, s, x + 1)
  {
    hide Tallied, Elements, Ascending;
    OneMoreElement(page, i);
    TallyOne(rows, page[i]);
    var before := Elements(page[..i]);
    match rows[page[i]].reason
    case None => TallyTogether(rows, before, {page[i]}, e, s, x, 1, 0, 0);
    case Some(UnownedRow) => TallyTogether(rows, before, {page[i]}, e, s, x, 0, 1, 0);
    case _ => TallyTogether(rows, before, {page[i]}, e, s, x, 0, 0, 1);
  }

  method SplitPage(page: seq<Id>, rows: map<Id, Record>) returns (eligible: seq<Id>, skipped: nat, excluded: nat)
    requires Ascending(page) && forall id :: id in page ==> id in rows
    ensures forall id :: id in eligible <==> id in page && id in Eligible(rows)
    ensures |eligible| + skipped + excluded == |page|
    ensures Tallied(rows, Elements(page), |eligible|, skipped, excluded)
  {
    hide Tallied, Elements, Ascending;
    eligible, skipped, excluded := [], 0, 0;
    TallyNone(rows);
    assert Elements(page[..0]) == {};
    for i := 0 to |page|
      invariant forall id :: id in eligible <==> id in page[..i] && id in Eligible(rows)
      invariant |eligible| + skipped + excluded == i
      invariant Tallied(rows, Elements(page[..i]), |eligible|, skipped, excluded)
    {
      TallyNext(rows, page, i, |eligible|, skipped, excluded);
      var record := rows[page[i]];
      if record.reason.Some? {
        if record.reason.value == UnownedRow { skipped := skipped + 1; } else { excluded := excluded + 1; }
      } else {
        eligible := eligible + [page[i]];
      }
      assert page[..i + 1] == page[..i] + [page[i]];
    }
    assert page[..|page|] == page;
  }

  lemma SplitKeepsPoints(page: seq<Id>, eligible: seq<Id>, kind: Kind, rows: map<Id, Record>, c: Contract)
    requires forall id :: id in eligible <==> id in page && id in Eligible(rows)
    ensures PagePoints(kind, eligible, rows, c) == PagePoints(kind, page, rows, c)
  {
  }

  /** What a rejected upsert wrote is what some part of the page holds. */
  ghost predicate PartOf(written: seq<Id>, page: seq<Id>, kind: Kind, rows: map<Id, Record>, c: Contract) {
    exists landed: set<Id> :: PagePoints(kind, written, rows, c) == PagePoints(kind, Kept(page, landed), rows, c)
  }

  lemma KeptIsPart(page: seq<Id>, eligible: seq<Id>, landed: set<Id>, kind: Kind, rows: map<Id, Record>, c: Contract)
    requires forall id :: id in eligible <==> id in page && id in Eligible(rows)
    ensures PartOf(Kept(eligible, landed), page, kind, rows, c)
  {
    hide Kept, FreshPoint;
    assert PagePoints(kind, Kept(eligible, landed), rows, c) == PagePoints(kind, Kept(page, landed), rows, c);
  }

  /** How far a scan got: n whole pages from `lo`, then the end of the table or an upsert cut short. */
  ghost predicate Scanned(report: BackfillReport, rejected: seq<Id>, pages: nat, batch: nat, kind: Kind,
                          rows: map<Id, Record>, c: Contract) {
    var reached := Boundary(rows.Keys, report.resumedFrom, batch, pages);
    && PagesLeft(rows.Keys, report.resumedFrom, batch, pages) && Reached(report) == reached
    && (report.lastId.None? <==> pages == 0)
    && if report.complete then Page(rows.Keys, reached, batch) == [] && rejected == []
       else Page(rows.Keys, reached, batch) != [] && PartOf(rejected, Page(rows.Keys, reached, batch), kind, rows, c)
  }

  /** Every point is eligible, and is either a fresh one or one that was already there. */
  ghost predicate Patched(points: Collection, before: Collection, kind: Kind, rows: map<Id, Record>, c: Contract) {
    forall id :: id in points ==>
      && id in Eligible(rows)
      && (points[id] == FreshPoint(kind, id, rows[id], c) || (id in before && points[id] == before[id]))
  }

  ghost predicate FreshWithin(points: Collection, kind: Kind, rows: map<Id, Record>, c: Contract, lo: Option<Id>,
                              hi: Option<Id>) {
    forall id :: id in Eligible(rows) && Within(id, lo, hi) ==> id in points && points[id] == FreshPoint(kind, id, rows[id], c)
  }

  /** The eligible rows up to where a scan got, and the ownerless and the otherwise left out up to there and in the page
      that was rejected, if one was. */
  ghost predicate Counts(upserted: nat, skipped: nat, excluded: nat, complete: bool, batch: nat, rows: map<Id, Record>,
                         lo: Option<Id>, last: Option<Id>) {
    var done := Stretch(rows.Keys, lo, last);
    var seen := if complete then done else done + Elements(Page(rows.Keys, last, batch));
    upserted == |Eligible(rows) * done| && skipped == |Ownerless(rows, seen)| && excluded == |LeftOut(rows, seen)|
  }

  /** What a report counts. */
  ghost predicate Counted(report: BackfillReport, pages: nat, batch: nat, rows: map<Id, Record>) {
    && Counts(report.upserted, report.skippedUnowned, report.excluded, report.complete, batch, rows, report.resumedFrom,
              Reached(report))
    && report.batches == pages + if report.complete then 0 else 1
  }

  lemma CountsAtEnd(upserted: nat, skipped: nat, excluded: nat, batch: nat, rows: map<Id, Record>, lo: Option<Id>,
                    last: Option<Id>)
    requires Tallied(rows, Stretch(rows.Keys, lo, last), upserted, skipped, excluded)
    ensures Counts(upserted, skipped, excluded, true, batch, rows, lo, last)
  {
  }

  lemma CountsAtCut(upserted: nat, s: nat, x: nat, cut: nat, t: nat, y: nat, batch: nat, rows: map<Id, Record>,
                    lo: Option<Id>, last: Option<Id>)
    requires batch >= 1 && Page(rows.Keys, last, batch) != []
    requires lo.Some? ==> last.Some? && lo.value <= last.value
    requires Tallied(rows, Stretch(rows.Keys, lo, last), upserted, s, x)
    requires Tallied(rows, Elements(Page(rows.Keys, last, batch)), cut, t, y)
    ensures Counts(upserted, s + t, x + y, false, batch, rows, lo, last)
  {
    CountPage(rows, lo, last, batch, upserted, s, x, cut, t, y);
    hide Page, Stretch;
  }

  lemma CountPage(rows: map<Id, Record>, lo: Option<Id>, last: Option<Id>, batch: nat, e: nat, s: nat, x: nat, f: nat,
                  t: nat, y: nat)
    requires batch >= 1 && Page(rows.Keys, last, batch) != []
    requires lo.Some? ==> last.Some? && lo.value <= last.value
    requires Tallied(rows, Stretch(rows.Keys, lo, last), e, s, x)
    requires Tallied(rows, Elements(Page(rows.Keys, last, batch)), f, t, y)
    ensures var page := Page(rows.Keys, last, batch);
            && Tallied(rows, Stretch(rows.Keys, lo, last) + Elements(page), e + f, s + t, x + y)
            && Stretch(rows.Keys, lo, Some(page[|page| - 1])) == Stretch(rows.Keys, lo, last) + Elements(page)
  {
    hide Page, Tallied;
    PageIsNextStretch(rows.Keys, last, batch);
    var page := Page(rows.Keys, last, batch);
    assert Stretch(rows.Keys, lo, last) !! Elements(page);
    TallyTogether(rows, Stretch(rows.Keys, lo, last), Elements(page), e, s, x, f, t, y);
    assert Stretch(rows.Keys, lo, Some(page[|page| - 1])) == Stretch(rows.Keys, lo, last) + Elements(page);
  }

  lemma AllTallied(rows: map<Id, Record>, lo: Option<Id>, last: Option<Id>, e: nat, s: nat, x: nat)
    requires Rest(rows.Keys, last) == {} && (last.None? ==> lo.None?)
    requires Tallied(rows, Stretch(rows.Keys, lo, last), e, s, x)
    ensures e + s + x == |Rest(rows.Keys, lo)|
  {
    forall id | id in rows.Keys ensures !Beyond(id, last) { assert id !in Rest(rows.Keys, last); }
    var all := Rest(rows.Keys, lo);
    assert Stretch(rows.Keys, lo, last) == all;
    assert all == (Eligible(rows) * all) + Ownerless(rows, all) + LeftOut(rows, all);
  }

  lemma NothingTallied(rows: map<Id, Record>, lo: Option<Id>)
    ensures Tallied(rows, Stretch(rows.Keys, lo, lo), 0, 0, 0)
  {
    TallyNone(rows);
    assert Stretch(rows.Keys, lo, lo) == {};
  }

  class Install {
    const sqlite: bool
    var db: Db
    var sql: Sql
    var collections: map<string, Collection>
    var outbox: seq<Intent>
    var checkpoints: map<CheckpointKey, Id>

    method Expand(c: Contract, probe: Probe) returns (ok: bool)
      modifies this`db
      ensures ok <==> Expanded(sqlite, old(db), c, probe).Some?
      ensures db == if ok then Expanded(sqlite, old(db), c, probe).value else old(db)
    {
      if sqlite {
        var file := new SqliteDatabase(db);
        var outcome := file.UpgradeSqliteSchema(c, probe);
        ok := outcome.Done?;
        db := file.State();
      } else {
        var table := new GenerationTable(db.rows);
        table.ActivateGenerations(c, false);
        db := db.(rows := table.rows);
        ok := true;
      }
    }

    /** One upsert call: the store acknowledges the whole page or rejects it after writing some of it. */
    method UpsertPage(g: string, kind: Kind, eligible: seq<Id>, rows: map<Id, Record>, c: Contract, answer: StoreAnswer)
      returns (ghost landed: seq<Id>)
      requires g in collections
      modifies this`collections
      ensures landed == if answer.Acked? then eligible else Kept(eligible, answer.landed)
      ensures collections == old(collections)[g := old(collections)[g] + PagePoints(kind, landed, rows, c)]
    {
      var written := if answer.Acked? then eligible else Kept(eligible, answer.landed);
      landed := written;
      collections := collections[g := collections[g] + PagePoints(kind, written, rows, c)];
    }

    /** One page of the keyset scan: its eligible rows upserted, then its checkpoint written. */
    method BackfillPage(c: Contract, kind: Kind, rows: map<Id, Record>, batch: nat, last: Option<Id>,
                        answer: StoreAnswer,
                        ghost before: Collection, ghost lo: Option<Id>)
      returns (step: PageStep, ghost rejected: seq<Id>)
      requires batch >= 1 && GenerationName(kind, c) in collections
      requires collections[GenerationName(kind, c)] == Written(before, kind, rows, c, lo, last)
      requires lo.Some? ==> last.Some? && lo.value <= last.value
      requires last.None? ==> lo.None?
      modifies this`collections, this`checkpoints
      ensures step.Exhausted? <==> Rest(rows.Keys, last) == {}
      ensures step.Exhausted? <==> Page(rows.Keys, last, batch) == []
      ensures step.Halted? ==> PartOf(rejected, Page(rows.Keys, last, batch), kind, rows, c)
      ensures step.Halted? ==> exists cut ::
                Tallied(rows, Elements(Page(rows.Keys, last, batch)), cut, step.skipped, step.excluded)
      ensures step.Advanced? ==>
                Tallied(rows, Elements(Page(rows.Keys, last, batch)), step.upserted, step.skipped, step.excluded)
      ensures step.Advanced? ==> step.hi == Page(rows.Keys, last, batch)[|Page(rows.Keys, last, batch)| - 1]
      ensures !step.Advanced? ==> checkpoints == old(checkpoints)
      ensures step.Exhausted? ==> collections == old(collections)
      ensures step.Halted? ==> collections == old(collections)[GenerationName(kind, c) :=
                                 Written(before, kind, rows, c, lo, last) + PagePoints(kind, rejected, rows, c)]
      ensures step.Advanced? ==>
                && (last.Some? ==> last.value < step.hi)
                && collections == old(collections)[GenerationName(kind, c) := Written(before, kind, rows, c, lo, Some(step.hi))]
                && checkpoints == old(checkpoints)[CheckpointFor(kind, c) := step.hi]
                && |Rest(rows.Keys, last)| == step.upserted + step.skipped + step.excluded + |Rest(rows.Keys, Some(step.hi))|
                && Rest(rows.Keys, Some(step.hi)) < Rest(rows.Keys, last)
    {
      hide Sorted, Page, PagePoints, Written, Rest, Eligible, FreshPoint, GenerationName, Kept, PartOf, Tallied, Elements;
      rejected := [];
      var page := Page(rows.Keys, last, batch);
      PageIsNextStretch(rows.Keys, last, batch);
      if page == [] {
        return Exhausted, [];
      }
      PageSize(rows.Keys, last, batch);
      var eligible, skipped, excluded := SplitPage(page, rows);
      var hi := page[|page| - 1];
      PageLanded(before, kind, rows, c, lo, last, page, eligible, hi);
      if eligible != [] {
        rejected := UpsertPage(GenerationName(kind, c), kind, eligible, rows, c, answer);
        if answer.Rejected? {
          KeptIsPart(page, eligible, answer.landed, kind, rows, c);
          return Halted(skipped, excluded), rejected;
        }
      }
      checkpoints := checkpoints[CheckpointFor(kind, c) := hi];
      return Advanced(hi, |eligible|, skipped, excluded), [];
    }

    /** Pages until the table is exhausted or an upsert is rejected. */
    method ScanPages(c: Contract, kind: Kind, rows: map<Id, Record>, batch: nat, lo: Option<Id>,
                     answers: seq<StoreAnswer>)
      returns (report: BackfillReport, ghost rejected: seq<Id>, ghost pages: nat)
      requires batch >= 1 && GenerationName(kind, c) in collections
      modifies this`collections, this`checkpoints
      ensures report.gcDeleted == 0 && report.resumedFrom == lo
      ensures checkpoints == if report.lastId.None? then old(checkpoints)
                             else old(checkpoints)[CheckpointFor(kind, c) := report.lastId.value]
      ensures lo.Some? && report.lastId.Some? ==> lo.value <= report.lastId.value
      ensures collections == old(collections)[GenerationName(kind, c) :=
                Written(old(collections)[GenerationName(kind, c)], kind, rows, c, lo, Reached(report))
                + PagePoints(kind, rejected, rows, c)]
      ensures Scanned(report, rejected, pages, batch, kind, rows, c)
      ensures report.complete ==> Rest(rows.Keys, Reached(report)) == {} && rejected == []
      ensures report.complete ==> report.upserted + report.excluded + report.skippedUnowned == |Rest(rows.Keys, lo)|
      ensures Counted(report, pages, batch, rows)
    {
      hide Sorted, Page, PagePoints, Written, Rest, Eligible, Within, FreshPoint, GenerationName, Kept, PartOf, PagesLeft,
        Tallied, Elements, Stretch, Counts;
      var g := GenerationName(kind, c);
      pages := 0;
      NoPagesYet(rows.Keys, lo, batch);
      ghost var before := collections[g];
      var last, lastId := lo, None;
      var batches: nat, upserted: nat, excluded: nat, skipped: nat := 0, 0, 0, 0;
      var complete := false;
      rejected := [];
      WrittenNothing(before, kind, rows, c, lo);
      NothingTallied(rows, lo);
      while true
        invariant g in old(collections)
        invariant collections == old(collections)[g := Written(before, kind, rows, c, lo, last)]
        invariant last == if lastId.None? then lo else lastId
        invariant last == Boundary(rows.Keys, lo, batch, pages) && PagesLeft(rows.Keys, lo, batch, pages)
        invariant lastId.None? <==> pages == 0
        invariant lo.Some? ==> last.Some? && lo.value <= last.value
        invariant checkpoints == if lastId.None? then old(checkpoints)
                                  else old(checkpoints)[CheckpointFor(kind, c) := lastId.value]
        invariant Tallied(rows, Stretch(rows.Keys, lo, last), upserted, skipped, excluded) && batches == pages
        decreases Rest(rows.Keys, last)
      {
        var answer := if batches < |answers| then answers[batches] else Acked;
        var step, landed := BackfillPage(c, kind, rows, batch, last, answer, before, lo);
        match step {
          case Exhausted =>
            complete := true;
            CountsAtEnd(upserted, skipped, excluded, batch, rows, lo, last);
            AllTallied(rows, lo, last, upserted, skipped, excluded);
            break;
          case Halted(unowned, other) =>
            ghost var cut: nat :| Tallied(rows, Elements(Page(rows.Keys, last, batch)), cut, unowned, other);
            CountsAtCut(upserted, skipped, excluded, cut, unowned, other, batch, rows, lo, last);
            batches, excluded, skipped, rejected := batches + 1, excluded + other, skipped + unowned, landed;
            break;
          case Advanced(hi, wrote, unowned, other) =>
            batches, upserted, excluded, skipped := batches + 1, upserted + wrote, excluded + other, skipped + unowned;
            OneMorePage(rows.Keys, lo, batch, pages);
            CountPage(rows, lo, last, batch, upserted - wrote, skipped - unowned, excluded - other, wrote, unowned, other);
            last, lastId, pages := Some(hi), Some(hi), pages + 1;
        }
      }
      report := BackfillReport(complete, batches, upserted, excluded, skipped, 0, lastId, lo);
      NoPageNoPoints(Written(before, kind, rows, c, lo, last), kind, rows, c);
    }

    /** Delete the points whose row is not eligible, and count them. */
    method CollectStale(g: string, rows: map<Id, Record>, report: BackfillReport) returns (finished: BackfillReport)
      requires g in collections
      modifies this`collections
      ensures collections == old(collections)[g := Collected(old(collections)[g], rows)]
      ensures finished == report.(gcDeleted := |old(collections)[g].Keys - Eligible(rows)|)
    {
      var stale := collections[g].Keys - Eligible(rows);
      assert collections[g] - stale == Collected(collections[g], rows);
      collections := collections[g := collections[g] - stale];
      finished := report.(gcDeleted := |stale|);
    }

    /** An existing collection is left exactly as it is. */
    method EnsureCollection(g: string)
      modifies this`collections
      ensures collections == old(collections)[g := Points(old(collections), g)]
    {
      if g !in collections {
        collections := collections[g := map[]];
      }
    }

    /** The collection opened, scanned from where the run starts, and swept. */
    method FillGeneration(c: Contract, kind: Kind, batch: nat, resume: bool, answers: seq<StoreAnswer>)
      returns (report: BackfillReport, ghost rejected: seq<Id>, ghost pages: nat)
      requires batch >= 1
      modifies this`collections, this`checkpoints
      ensures checkpoints == if report.lastId.None? then old(checkpoints)
                             else old(checkpoints)[CheckpointFor(kind, c) := report.lastId.value]
      ensures report.resumedFrom == Start(old(checkpoints), kind, c, resume)
      ensures Scanned(report, rejected, pages, batch, kind, SqlRows(sql, kind), c)
      ensures collections == old(collections)[GenerationName(kind, c) :=
                AfterScan(Points(old(collections), GenerationName(kind, c)), kind, SqlRows(sql, kind), c, report, rejected)]
      ensures Counted(report, pages, batch, SqlRows(sql, kind))
      ensures report.gcDeleted == |Points(old(collections), GenerationName(kind, c)).Keys - Eligible(SqlRows(sql, kind))|
      ensures OnlyAt(GenerationName(kind, c), old(collections), collections)
      ensures Rebuilt(report, kind, SqlRows(sql, kind), c, Points(old(collections), GenerationName(kind, c)),
                      collections[GenerationName(kind, c)])
    {
      hide Sorted, Page, PagePoints, Written, Rest, FreshPoint, GenerationName, Swept, Collected, Patched, FreshWithin,
        Eligible, SqlRows, Start, Rebuilt, Points, OnlyAt, Scanned, Boundary, PagesLeft, PartOf, AfterScan, Reached,
        Counted;
      var g := GenerationName(kind, c);
      ghost var before := Points(collections, g);
      EnsureCollection(g);
      var lo := Start(checkpoints, kind, c, resume);
      var rows := ReadRows(sql, kind);
      var scan;
      scan, rejected, pages := ScanPages(c, kind, rows, batch, lo, answers);
      ghost var scanned := Written(before, kind, rows, c, lo, Reached(scan)) + PagePoints(kind, rejected, rows, c);
      Overwrites(old(collections), g, before, scanned);
      report := CollectStale(g, rows, scan);
      Overwrites(old(collections), g, scanned, Collected(scanned, rows));
      SweepFacts(old(collections), g, kind, rows, c, lo, scan, rejected, pages, batch, report.gcDeleted);
      NothingStaleAdded(before, kind, rows, c, lo, Reached(scan), rejected);
      SameCounts(scan, report.gcDeleted, pages, batch, rows);
    }

    /** backfill --kind --batch [--resume], with the app stopped: no SQL row changes while it runs. */
    method Backfill(c: Contract, kind: Kind, batch: int, resume: bool, probe: Probe, answers: seq<StoreAnswer>)
      returns (outcome: BackfillOutcome, ghost rejected: seq<Id>, ghost pages: nat)
      modifies this`db, this`collections, this`checkpoints
      ensures outcome.BackfillRefused? <==> batch < 1
      ensures outcome.LadderRaised? <==> batch >= 1 && Expanded(sqlite, old(db), c, probe).None?
      ensures !outcome.Ran? ==> db == old(db) && collections == old(collections) && checkpoints == old(checkpoints)
      ensures outcome.Ran? ==> db == Expanded(sqlite, old(db), c, probe).value
      ensures outcome.Ran? ==> checkpoints == if outcome.report.lastId.None? then old(checkpoints)
                                              else old(checkpoints)[CheckpointFor(kind, c) := outcome.report.lastId.value]
      ensures outcome.Ran? ==> outcome.report.resumedFrom == Start(old(checkpoints), kind, c, resume)
      ensures outcome.Ran? ==> Scanned(outcome.report, rejected, pages, batch, kind, SqlRows(sql, kind), c)
      ensures outcome.Ran? ==> Counted(outcome.report, pages, batch, SqlRows(sql, kind))
      ensures outcome.Ran? ==>
                outcome.report.gcDeleted
                == |Points(old(collections), GenerationName(kind, c)).Keys - Eligible(SqlRows(sql, kind))|
      ensures outcome.Ran? ==> collections == old(collections)[GenerationName(kind, c) :=
                AfterScan(Points(old(collections), GenerationName(kind, c)), kind, SqlRows(sql, kind), c, outcome.report, rejected)]
      ensures outcome.Ran? ==> GenerationName(kind, c) in collections
                               && OnlyAt(GenerationName(kind, c), old(collections), collections)
                               && Rebuilt(outcome.report, kind, SqlRows(sql, kind), c,
                                          Points(old(collections), GenerationName(kind, c)), collections[GenerationName(kind, c)])
    {
      hide GenerationName, SqlRows, Expanded, Start, Rebuilt, Points, OnlyAt, Scanned, AfterScan,
        Counted, Eligible;
      rejected, pages := [], 0;
      if batch < 1 {
        return BackfillRefused, [], 0;
      }
      var ok := Expand(c, probe);
      if !ok {
        return LadderRaised, [], 0;
      }
      var report;
      report, rejected, pages := FillGeneration(c, kind, batch, resume, answers);
      return Ran(report), rejected, pages;
    }

    /** cutover: both kinds verified, then pointer flip and intent block in one transaction. */
    method Cutover(c: Contract, yes: bool) returns (outcome: CutoverOutcome)
      modifies this`db, this`outbox
      ensures outcome.NeedsYes? <==> !yes
      ensures outcome.AuditBroke? <==> yes && exists kind :: AuditBreaks(kind, sql, old(db).rows, collections, c)
      ensures outcome.Flipped? <==> yes && forall kind :: Green(kind, sql, old(db).rows, collections, c)
      ensures outcome.Flipped? ==>
                && db.rows.Keys == old(db.rows.Keys) + {Target(Memory, c), Target(Chunk, c)}
                && (forall kind :: db.rows[Target(kind, c)] == Entry(c.token, true))
                && (forall k :: k in old(db.rows) && k.generation != GenerationName(k.kind, c) ==>
                      db.rows[k] == old(db.rows)[k].(active := false))
      ensures outcome.Flipped? ==>
                && db == old(db).(rows := Activated(old(db).rows, c, true))
                && outbox == BlockedOutbox(old(outbox), c)
                && outcome.blockedMemory == Moved(old(outbox), outbox, Memory)
                && outcome.blockedChunk == Moved(old(outbox), outbox, Chunk)
      ensures !outcome.Flipped? ==> db == old(db) && outbox == old(outbox)
    {
      hide ReadsExact, SqlRows, Activated, BlockKind, CountStale, Moved, BlockedOutbox, GenerationName, ManifestCurrent,
        Points, Breaks;
      if !yes {
        return NeedsYes;
      }
      var memory := VerifyGeneration(Memory, sql, db.rows, Points(collections, GenerationName(Memory, c)), c);
      assert memory.Reported? && memory.report.ok <==> Green(Memory, sql, db.rows, collections, c);
      assert memory.Broke? <==> AuditBreaks(Memory, sql, db.rows, collections, c);
      if memory.Broke? {
        return AuditBroke;
      }
      var chunk := VerifyGeneration(Chunk, sql, db.rows, Points(collections, GenerationName(Chunk, c)), c);
      assert chunk.Reported? && chunk.report.ok <==> Green(Chunk, sql, db.rows, collections, c);
      assert chunk.Broke? <==> AuditBreaks(Chunk, sql, db.rows, collections, c);
      if chunk.Broke? {
        return AuditBroke;
      }
      forall kind ensures !AuditBreaks(kind, sql, db.rows, collections, c) {
        match kind
        case Memory =>
        case Chunk =>
      }
      if !memory.report.ok || !chunk.report.ok {
        return VerifyFailed;
      }
      forall kind ensures Green(kind, sql, db.rows, collections, c) {
        match kind
        case Memory =>
        case Chunk =>
      }
      FlipWrites(db.rows, c);
      // The transaction's own copy; the two assignments at the end are its commit.
      var table := new GenerationTable(db.rows);
      table.ActivateGenerations(c, true);
      var blockedMemory := CountStale(outbox, Memory, GenerationName(Memory, c));
      var work := BlockKind(outbox, Memory, GenerationName(Memory, c));
      var blockedChunk := CountStale(work, Chunk, GenerationName(Chunk, c));
      work := BlockKind(work, Chunk, GenerationName(Chunk, c));
      KindsBlockApart(outbox, GenerationName(Memory, c), GenerationName(Chunk, c));
      BlockingKindByKind(outbox, c);
      StaleAreTheMoved(outbox, c, Memory);
      StaleAreTheMoved(outbox, c, Chunk);
      db, outbox := db.(rows := table.rows), work;
      return Flipped(blockedMemory, blockedChunk);
    }
  }

  lemma FlipWrites(rows: Rows, c: Contract)
    ensures Activated(rows, c, true).Keys == rows.Keys + {Target(Memory, c), Target(Chunk, c)}
    ensures forall kind :: Activated(rows, c, true)[Target(kind, c)] == Entry(c.token, true)
    ensures forall k :: k in rows && k.generation != GenerationName(k.kind, c) ==>
              Activated(rows, c, true)[k] == rows[k].(active := false)
  {
    forall kind ensures Activated(rows, c, true)[Target(kind, c)] == Entry(c.token, true) {
      assert Target(kind, c) in rows.Keys + {Target(Memory, c), Target(Chunk, c)} by { match kind case Memory => case Chunk => }
    }
  }

  lemma Overwrites(collections: map<string, Collection>, g: string, x: Collection, y: Collection)
    ensures collections[g := x][g := y] == collections[g := y]
  {
  }

  lemma NothingStaleAdded(before: Collection, kind: Kind, rows: map<Id, Record>, c: Contract, lo: Option<Id>,
                          hi: Option<Id>, part: seq<Id>)
    ensures var scanned := Written(before, kind, rows, c, lo, hi) + PagePoints(kind, part, rows, c);
            scanned.Keys - Eligible(rows) == before.Keys - Eligible(rows)
  {
    hide FreshPoint;
  }

  lemma SameCounts(report: BackfillReport, deleted: nat, pages: nat, batch: nat, rows: map<Id, Record>)
    requires Counted(report, pages, batch, rows)
    ensures Counted(report.(gcDeleted := deleted), pages, batch, rows)
  {
  }

  lemma NoPagesYet(ids: set<Id>, lo: Option<Id>, batch: nat)
    ensures Boundary(ids, lo, batch, 0) == lo && PagesLeft(ids, lo, batch, 0)
  {
  }

  /** What the end of a backfill makes of the scan before it. */
  lemma SweepFacts(collections: map<string, Collection>, g: string, kind: Kind, rows: map<Id, Record>, c: Contract,
                   lo: Option<Id>, report: BackfillReport, rejected: seq<Id>, pages: nat, batch: nat, deleted: nat)
    requires report.resumedFrom == lo && Scanned(report, rejected, pages, batch, kind, rows, c)
    requires lo.Some? && report.lastId.Some? ==> lo.value <= report.lastId.value
    requires report.complete ==> Rest(rows.Keys, Reached(report)) == {} && rejected == []
    requires report.complete ==> report.upserted + report.excluded + report.skippedUnowned == |Rest(rows.Keys, lo)|
    ensures var finished, before := report.(gcDeleted := deleted), Points(collections, g);
            var after := Collected(Written(before, kind, rows, c, lo, Reached(report))
                                   + PagePoints(kind, rejected, rows, c), rows);
            && Scanned(finished, rejected, pages, batch, kind, rows, c)
            && after == AfterScan(before, kind, rows, c, finished, rejected)
            && Rebuilt(finished, kind, rows, c, before, after)
            && OnlyAt(g, collections, collections[g := after])
  {
    hide Sorted, Page, Boundary, PagesLeft, PartOf, GenerationName, FreshPoint, Elements;
    var before := Points(collections, g);
    var scanned := Written(before, kind, rows, c, lo, Reached(report)) + PagePoints(kind, rejected, rows, c);
    var points := Collected(scanned, rows);
    assert Patched(points, before, kind, rows, c);
    assert FreshWithin(points, kind, rows, c, lo, report.lastId);
    if report.complete {
      hide Patched, FreshWithin, Collected, Written, Swept, Rest;
      NoPageNoPoints(Written(before, kind, rows, c, lo, Reached(report)), kind, rows, c);
      EndOfTableIsSwept(before, kind, rows, c, lo, Reached(report));
    }
  }

  lemma NoPageNoPoints(points: Collection, kind: Kind, rows: map<Id, Record>, c: Contract)
    ensures points + PagePoints(kind, [], rows, c) == points
  {
    assert PagePoints(kind, [], rows, c) == map[];
  }

  lemma WrittenNothing(points: Collection, kind: Kind, rows: map<Id, Record>, c: Contract, lo: Option<Id>)
    ensures Written(points, kind, rows, c, lo, lo) == points
  {
  }

  lemma PageLanded(before: Collection, kind: Kind, rows: map<Id, Record>, c: Contract,
                   lo: Option<Id>, last: Option<Id>, page: seq<Id>, eligible: seq<Id>, hi: Id)
    requires lo.Some? ==> last.Some? && lo.value <= last.value
    requires last.None? ==> lo.None?
    requires last.Some? ==> last.value < hi
    requires forall id :: id in page <==> id in rows && Within(id, last, Some(hi))
    requires forall id :: id in eligible <==> id in page && id in Eligible(rows)
    ensures Written(before, kind, rows, c, lo, last) + PagePoints(kind, eligible, rows, c)
              == Written(before, kind, rows, c, lo, Some(hi))
    ensures eligible == [] ==> Written(before, kind, rows, c, lo, last) == Written(before, kind, rows, c, lo, Some(hi))
  {
    SplitKeepsPoints(page, eligible, kind, rows, c);
    PageExtendsWritten(before, kind, rows, c, lo, last, page, hi);
    if eligible == [] {
      assert PagePoints(kind, eligible, rows, c) == map[];
    }
  }
}
