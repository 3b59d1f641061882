/** A backfill's scan page by page: what a crash anywhere in it leaves to redo, and the commands of an Install as runs
    of the machine. */
module MigrationScans {
  import opened Common
  import opened Manifest
  import opened Ladder
  import opened Eligibility
  import opened Audit
  import opened Verify
  import opened Keyset
  import opened Backfill
  import opened MigrationCli
  import opened MigrationRuns

  predicate ScanReady(s: State) {
    s.phase.Scanning? && s.phase.batch >= 1 && GenerationName(s.phase.kind, s.c) in s.collections
  }

  /** Where a scan standing in `s` is after n more pages. */
  function After(s: State, n: nat): Option<Id>
    requires s.phase.Scanning?
  {
    Boundary(RowsOf(s, s.phase.kind).Keys, s.phase.last, s.phase.batch, n)
  }

  function PageAfter(s: State, n: nat): seq<Id>
    requires s.phase.Scanning?
  {
    Page(RowsOf(s, s.phase.kind).Keys, After(s, n), s.phase.batch)
  }

  ghost predicate HasPages(s: State, n: nat)
    requires s.phase.Scanning?
  {
    PagesLeft(RowsOf(s, s.phase.kind).Keys, s.phase.last, s.phase.batch, n)
  }

  function CheckpointsAt(s: State, last: Option<Id>): map<CheckpointKey, Id>
    requires s.phase.Scanning?
  {
    if last.None? || last == s.phase.last then s.checkpoints
    else s.checkpoints[CheckpointFor(s.phase.kind, s.c) := last.value]
  }

  function PointsAt(s: State, last: Option<Id>, part: seq<Id>): Collection
    requires s.phase.Scanning?
  {
    var kind := s.phase.kind;
    Written(PointsOf(s, kind), kind, RowsOf(s, kind), s.c, s.phase.last, last) + PagePoints(kind, part, RowsOf(s, kind), s.c)
  }

  /** The scan of `s` got to `last`, checkpoint and all, and wrote some points of the page after it. */
  function ScanAt(s: State, last: Option<Id>, part: seq<Id>, phase: Phase): State
    requires s.phase.Scanning?
  {
    Store(s, s.phase.kind, PointsAt(s, last, part)).(checkpoints := CheckpointsAt(s, last), phase := phase)
  }

  function StandingAt(s: State, last: Option<Id>): State
    requires s.phase.Scanning?
  {
    ScanAt(s, last, [], Scanning(s.phase.kind, s.phase.batch, last))
  }

  lemma StandsAtStart(s: State)
    requires ScanReady(s)
    ensures StandingAt(s, s.phase.last) == s
  {
    hide PagePoints, SqlRows, GenerationName, Written;
    WrittenNothing(PointsOf(s, s.phase.kind), s.phase.kind, RowsOf(s, s.phase.kind), s.c, s.phase.last);
    NoPageNoPoints(PointsOf(s, s.phase.kind), s.phase.kind, RowsOf(s, s.phase.kind), s.c);
  }

  lemma {:induction false} PagesGoUp(ids: set<Id>, lo: Option<Id>, batch: nat, n: nat)
    requires batch >= 1 && PagesLeft(ids, lo, batch, n)
    ensures n > 0 ==> Boundary(ids, lo, batch, n).Some? && Boundary(ids, lo, batch, n) != lo
    ensures lo.Some? ==> Boundary(ids, lo, batch, n).Some? && lo.value <= Boundary(ids, lo, batch, n).value
    ensures lo.Some? && n > 0 ==> lo.value < Boundary(ids, lo, batch, n).value
  {
    hide Page;
    if n > 0 {
      PagesGoUp(ids, lo, batch, n - 1);
      PageIsNextStretch(ids, Boundary(ids, lo, batch, n - 1), batch);
    }
  }

  lemma PageOfStanding(s: State, n: nat)
    requires s.phase.Scanning?
    ensures PageOf(StandingAt(s, After(s, n))) == PageAfter(s, n)
  {
    hide Page, SqlRows, PointsAt, GenerationName, Boundary;
  }

  lemma PageExtendsPoints(s: State, n: nat)
    requires ScanReady(s) && HasPages(s, n) && PageAfter(s, n) != []
    ensures HasPages(s, n + 1) && After(s, n + 1) == Some(PageAfter(s, n)[|PageAfter(s, n)| - 1])
    ensures PointsAt(s, After(s, n), PageAfter(s, n)) == PointsAt(s, After(s, n + 1), [])
  {
    hide Page, SqlRows, PagePoints, Written, GenerationName;
    var kind := s.phase.kind;
    var rows, page := RowsOf(s, kind), PageAfter(s, n);
    OneMorePage(rows.Keys, s.phase.last, s.phase.batch, n);
    PagesGoUp(rows.Keys, s.phase.last, s.phase.batch, n);
    hide Boundary, PagesLeft;
    PageIsNextStretch(rows.Keys, After(s, n), s.phase.batch);
    PageExtendsWritten(PointsOf(s, kind), kind, rows, s.c, s.phase.last, After(s, n), page, page[|page| - 1]);
    NoPageNoPoints(Written(PointsOf(s, kind), kind, rows, s.c, s.phase.last, After(s, n + 1)), kind, rows, s.c);
  }

  /** What a write of the next page, whole or in part, makes of the state. */
  lemma PutAt(s: State, n: nat, part: seq<Id>)
    requires ScanReady(s)
    ensures var u, kind := StandingAt(s, After(s, n)), s.phase.kind;
            Store(u, kind, PointsOf(u, kind) + PagePoints(kind, part, RowsOf(u, kind), u.c))
            == ScanAt(s, After(s, n), part, u.phase)
  {
    hide Page, SqlRows, PagePoints, Written, GenerationName, Boundary;
    var u, kind := StandingAt(s, After(s, n)), s.phase.kind;
    StoredApart(s, kind, PointsAt(s, After(s, n), []));
    NoPageNoPoints(Written(PointsOf(s, kind), kind, RowsOf(s, kind), s.c, s.phase.last, After(s, n)), kind, RowsOf(s, kind), s.c);
    assert PointsOf(u, kind) == PointsOf(Store(s, kind, PointsAt(s, After(s, n), [])), kind);
    Overwrites(s.collections, GenerationName(kind, s.c), PointsAt(s, After(s, n), []), PointsAt(s, After(s, n), part));
  }

  lemma PageSteps(s: State, n: nat)
    requires ScanReady(s) && HasPages(s, n) && PageAfter(s, n) != []
    ensures var u, page := StandingAt(s, After(s, n)), PageAfter(s, n);
            var landed := Next(u, PutPage);
            && Enabled(u, PutPage)
            && landed == ScanAt(s, After(s, n), page, Landed(s.phase.kind, s.phase.batch, page[|page| - 1]))
            && Next(landed, WriteCheckpoint) == StandingAt(s, After(s, n + 1))
  {
    hide Page, SqlRows, PointsAt, GenerationName, Boundary, PagesLeft, PagePoints;
    PageOfStanding(s, n);
    PutAt(s, n, PageAfter(s, n));
    PageExtendsPoints(s, n);
    CheckpointMoves(s, n);
  }

  lemma CheckpointMoves(s: State, n: nat)
    requires ScanReady(s) && HasPages(s, n + 1) && After(s, n + 1).Some?
    ensures CheckpointsAt(s, After(s, n))[CheckpointFor(s.phase.kind, s.c) := After(s, n + 1).value]
              == CheckpointsAt(s, After(s, n + 1))
  {
    hide Page, SqlRows, GenerationName, Boundary, PagesLeft;
    PagesGoUp(RowsOf(s, s.phase.kind).Keys, s.phase.last, s.phase.batch, n + 1);
  }

  // ── a crash anywhere in a scan ─────────────────────────────────────────────

  /** A step of the scan itself, and the crashes: between two steps or in the middle of an upsert. */
  predicate InScan(a: Action) { a.PutPage? || (a.PutPart? && a.crash) || a.WriteCheckpoint? || a.Crash? }

  /** `t` is the scan of `s` after n checkpointed pages and some points of the page after those. */
  ghost predicate CutAt(s: State, t: State, n: nat, part: seq<Id>)
    requires s.phase.Scanning?
  {
    && HasPages(s, n) && (forall id :: id in part ==> id in PageAfter(s, n))
    && t == ScanAt(s, After(s, n), part, t.phase)
  }

  ghost predicate ScanPhase(s: State, t: State, n: nat, part: seq<Id>)
    requires s.phase.Scanning?
  {
    match t.phase
    case Scanning(_, _, _) => part == [] && t.phase == Scanning(s.phase.kind, s.phase.batch, After(s, n))
    case Landed(_, _, _) =>
      && part == PageAfter(s, n) != []
      && t.phase == Landed(s.phase.kind, s.phase.batch, PageAfter(s, n)[|PageAfter(s, n)| - 1])
    case _ => t.phase.Idle?
  }

  lemma CutStep(s: State, t: State, n: nat, part: seq<Id>, a: Action) returns (m: nat, next: seq<Id>)
    requires ScanReady(s) && CutAt(s, t, n, part) && ScanPhase(s, t, n, part) && Enabled(t, a) && InScan(a)
    ensures CutAt(s, Next(t, a), m, next) && ScanPhase(s, Next(t, a), m, next)
  {
    hide Page, SqlRows, PointsAt, GenerationName, Boundary, PagesLeft, PagePoints, Kept, CheckpointsAt, Expanded,
         Green, Activated, BlockedOutbox, Collected, Start, Eligible;
    m, next := n, part;
    match a
    case PutPage =>
      PageOfStanding(s, n);
      PageSteps(s, n);
      next := PageAfter(s, n);
    case PutPart(landed, _) =>
      PageOfStanding(s, n);
      next := Kept(PageAfter(s, n), landed);
      PutAt(s, n, next);
      KeptSome(PageAfter(s, n), landed);
    case WriteCheckpoint =>
      PageSteps(s, n);
      PageExtendsPoints(s, n);
      m, next := n + 1, [];
    case Crash =>
  }

  lemma KeptSome(page: seq<Id>, landed: set<Id>)
    ensures forall id :: id in Kept(page, landed) ==> id in page
  {
  }

  /** Wherever a scan is cut off, in its first page or any other: some whole pages are written, the checkpoint is at
      the end of the last one, beyond it there are at most fresh points of the one page that was under way, and
      nothing else of the install is different. */
  lemma {:induction false} CrashCostsOnePage(s: State, acts: seq<Action>) returns (n: nat, part: seq<Id>)
    requires ScanReady(s) && Valid(s, acts) && forall i :: 0 <= i < |acts| ==> InScan(acts[i])
    ensures CutAt(s, Run(s, acts), n, part) && ScanPhase(s, Run(s, acts), n, part)
  {
    hide Next, Enabled, ScanAt, GenerationName, PagesLeft, Boundary, Page, SqlRows, InScan;
    if acts == [] {
      n, part := 0, [];
      StandsAtStart(s);
      NoPagesYet(RowsOf(s, s.phase.kind).Keys, s.phase.last, s.phase.batch);
    } else {
      var m, was := CrashCostsOnePage(s, acts[..|acts| - 1]);
      assert InScan(acts[|acts| - 1]);
      n, part := CutStep(s, Run(s, acts[..|acts| - 1]), m, was, acts[|acts| - 1]);
    }
  }

  // ── and what the resumed scan makes of it ──────────────────────────────────

  function Resumed(t: State, kind: Kind, batch: nat, probe: Probe): State {
    Next(Next(t, Begin(kind, batch, true, probe)), Open)
  }

  /** A resume starts at the last checkpoint. That is where the crash left the scan, except when the scan was a fresh
      start, had no page done, and an older checkpoint was there. */
  lemma ResumeStartsAtIff(s: State, t: State, n: nat, part: seq<Id>, batch: nat, probe: Probe)
    requires ScanReady(s) && CutAt(s, t, n, part) && t.phase.Idle?
    requires Enabled(t, Begin(s.phase.kind, batch, true, probe))
    ensures var u, kind := Resumed(t, s.phase.kind, batch, probe), s.phase.kind;
            && ScanReady(u) && u.phase == Scanning(kind, batch, Start(t.checkpoints, kind, t.c, true))
            && u.sql == s.sql && u.c == s.c && PointsOf(u, kind) == PointsAt(s, After(s, n), part)
            && (u.phase.last == After(s, n) <==> n > 0 || Start(s.checkpoints, kind, s.c, true) == s.phase.last)
  {
    hide Page, SqlRows, PointsAt, GenerationName, Boundary, PagesLeft, PagePoints, Expanded, Green;
    var kind := s.phase.kind;
    StoredApart(s, kind, PointsAt(s, After(s, n), part));
    assert PointsOf(t, kind) == PointsOf(Store(s, kind, PointsAt(s, After(s, n), part)), kind);
    var v := Next(t, Begin(kind, batch, true, probe));
    StoredApart(v, kind, PointsOf(v, kind));
    PagesGoUp(RowsOf(s, kind).Keys, s.phase.last, s.phase.batch, n);
    NoPagesYet(RowsOf(s, kind).Keys, s.phase.last, s.phase.batch);
  }

  function PageActs(n: nat): seq<Action> { if n == 0 then [] else PageActs(n - 1) + [PutPage, WriteCheckpoint] }

  lemma {:induction false} ScanSteps(s: State, n: nat)
    requires ScanReady(s) && HasPages(s, n)
    ensures Valid(s, PageActs(n)) && Run(s, PageActs(n)) == StandingAt(s, After(s, n))
  {
    hide Page, SqlRows, GenerationName, StandingAt, Boundary, Next, Enabled;
    if n == 0 {
      StandsAtStart(s);
      NoPagesYet(RowsOf(s, s.phase.kind).Keys, s.phase.last, s.phase.batch);
    } else {
      assert PageAfter(s, n - 1) != [];
      hide PagesLeft;
      assert HasPages(s, n - 1) by { FewerPages(s, n); }
      ScanSteps(s, n - 1);
      PageSteps(s, n - 1);
      var u := StandingAt(s, After(s, n - 1));
      LandedEnables(s, n - 1);
      Unrolled(u, [PutPage, WriteCheckpoint], [u, Next(u, PutPage), Next(Next(u, PutPage), WriteCheckpoint)]);
      RunJoins(s, PageActs(n - 1), [PutPage, WriteCheckpoint]);
    }
  }

  lemma FewerPages(s: State, n: nat)
    requires s.phase.Scanning? && n > 0 && HasPages(s, n)
    ensures HasPages(s, n - 1)
  {
  }

  lemma LandedEnables(s: State, n: nat)
    requires ScanReady(s) && HasPages(s, n) && PageAfter(s, n) != []
    ensures Enabled(Next(StandingAt(s, After(s, n)), PutPage), WriteCheckpoint)
  {
    hide Page, SqlRows, PointsAt, GenerationName, Boundary, PagesLeft, PagePoints;
    PageSteps(s, n);
  }

  lemma WrittenFurtherAt(points: Collection, kind: Kind, rows: map<Id, Record>, c: Contract, lo: Option<Id>,
                         last: Option<Id>, hi: Option<Id>, part: Collection, id: Id)
    requires lo.Some? ==> last.Some? && lo.value <= last.value
    requires last.Some? ==> hi.Some? && last.value <= hi.value
    requires id in part ==> id in Eligible(rows) && part[id] == FreshPoint(kind, id, rows[id], c)
    ensures var twice := Written(Written(points, kind, rows, c, lo, last) + part, kind, rows, c, last, hi);
            var once := Written(points, kind, rows, c, lo, hi) + part;
            (id in twice <==> id in once) && (id in twice ==> twice[id] == once[id])
  {
    hide FreshPoint, Eligible;
  }

  lemma WrittenFurther(points: Collection, kind: Kind, rows: map<Id, Record>, c: Contract, lo: Option<Id>,
                       last: Option<Id>, hi: Option<Id>, part: seq<Id>)
    requires lo.Some? ==> last.Some? && lo.value <= last.value
    requires last.Some? ==> hi.Some? && last.value <= hi.value
    ensures Written(Written(points, kind, rows, c, lo, last) + PagePoints(kind, part, rows, c), kind, rows, c, last, hi)
              == Written(points, kind, rows, c, lo, hi) + PagePoints(kind, part, rows, c)
  {
    hide FreshPoint, Written, Eligible;
    var extra := PagePoints(kind, part, rows, c);
    var twice := Written(Written(points, kind, rows, c, lo, last) + extra, kind, rows, c, last, hi);
    forall id ensures (id in twice <==> id in Written(points, kind, rows, c, lo, hi) + extra)
                      && (id in twice ==> twice[id] == (Written(points, kind, rows, c, lo, hi) + extra)[id])
    {
      WrittenFurtherAt(points, kind, rows, c, lo, last, hi, extra, id);
    }
  }

  lemma LargerPrefix(ids: set<Id>, last: Option<Id>, small: nat, large: nat, id: Id)
    requires 1 <= small <= large && id in Page(ids, last, small)
    ensures id in Page(ids, last, large)
  {
    hide Sorted, Rest;
    var i :| 0 <= i < |Page(ids, last, small)| && Page(ids, last, small)[i] == id;
    assert Page(ids, last, large)[i] == id;
  }

  /** A page of the same or a larger size reaches at least as far. */
  lemma LargerPage(ids: set<Id>, last: Option<Id>, small: nat, large: nat, n: nat, id: Id)
    requires 1 <= small <= large && id in Page(ids, last, small) && n > 0 && PagesLeft(ids, last, large, n)
    ensures !Beyond(id, Boundary(ids, last, large, n))
    decreases n
  {
    hide Page, Sorted;
    if n > 1 {
      LargerPage(ids, last, small, large, n - 1, id);
      PageIsNextStretch(ids, Boundary(ids, last, large, n - 1), large);
    } else {
      NoPagesYet(ids, last, large);
      LargerPrefix(ids, last, small, large, id);
      PageElements(ids, last, large);
    }
  }

  lemma PartIsBeyond(s: State, n: nat, id: Id)
    requires ScanReady(s) && HasPages(s, n) && id in PageAfter(s, n)
    ensures Beyond(id, After(s, n)) && Beyond(id, s.phase.last)
  {
    hide Page, SqlRows, GenerationName, Boundary, PagesLeft;
    PagesGoUp(RowsOf(s, s.phase.kind).Keys, s.phase.last, s.phase.batch, n);
    PageIsNextStretch(RowsOf(s, s.phase.kind).Keys, After(s, n), s.phase.batch);
  }

  lemma CaughtUp(s: State, n: nat, part: seq<Id>, u: State, m: nat)
    requires ScanReady(s) && HasPages(s, n) && forall id :: id in part ==> id in PageAfter(s, n)
    requires ScanReady(u) && u.phase.kind == s.phase.kind && u.phase.last == After(s, n) && HasPages(u, m)
    requires u.sql == s.sql && u.c == s.c && PointsOf(u, s.phase.kind) == PointsAt(s, After(s, n), part)
    ensures PointsAt(u, After(u, m), []) == PointsAt(s, After(u, m), part)
    ensures (forall id :: id in part ==> !Beyond(id, After(u, m))) ==>
              PointsAt(u, After(u, m), []) == PointsAt(s, After(u, m), [])
    ensures m > 0 && u.phase.batch >= s.phase.batch ==> forall id :: id in part ==> !Beyond(id, After(u, m))
  {
    hide Page, SqlRows, GenerationName, Boundary, PagesLeft, PagePoints, Written;
    var kind := s.phase.kind;
    var rows, lo, hi := RowsOf(s, kind), s.phase.last, After(u, m);
    PagesGoUp(rows.Keys, lo, s.phase.batch, n);
    PagesGoUp(rows.Keys, After(s, n), u.phase.batch, m);
    forall id | id in part ensures Beyond(id, lo) { PartIsBeyond(s, n, id); }
    WrittenFurther(PointsOf(s, kind), kind, rows, s.c, lo, After(s, n), hi, part);
    NoPageNoPoints(Written(PointsOf(u, kind), kind, rows, s.c, After(s, n), hi), kind, rows, s.c);
    NoPageNoPoints(Written(PointsOf(s, kind), kind, rows, s.c, lo, hi), kind, rows, s.c);
    if forall id :: id in part ==> !Beyond(id, hi) {
      NoPointsBeyond(s, part, hi);
    }
    if m > 0 && u.phase.batch >= s.phase.batch {
      forall id | id in part ensures !Beyond(id, hi) {
        LargerPage(rows.Keys, After(s, n), s.phase.batch, u.phase.batch, m, id);
      }
    }
  }

  lemma NoPointsBeyond(s: State, part: seq<Id>, hi: Option<Id>)
    requires s.phase.Scanning? && forall id :: id in part ==> Beyond(id, s.phase.last) && !Beyond(id, hi)
    ensures PointsAt(s, hi, part) == PointsAt(s, hi, [])
  {
    hide SqlRows, GenerationName, PagePoints, Written;
    var kind := s.phase.kind;
    var points, rows, lo := PointsOf(s, kind), RowsOf(s, kind), s.phase.last;
    assert forall id :: id in part ==> Within(id, lo, hi);
    NoPageNoPoints(Written(points, kind, rows, s.c, lo, hi), kind, rows, s.c);
    WrittenCovers(points, kind, rows, s.c, lo, hi, part);
  }

  lemma WrittenCovers(points: Collection, kind: Kind, rows: map<Id, Record>, c: Contract, lo: Option<Id>,
                      hi: Option<Id>, part: seq<Id>)
    requires forall id :: id in part ==> Within(id, lo, hi)
    ensures Written(points, kind, rows, c, lo, hi) + PagePoints(kind, part, rows, c)
              == Written(points, kind, rows, c, lo, hi)
  {
    hide FreshPoint;
  }

  /** However many pages of whatever size the resumed scan has done: its collection is what the scan that never crashed
      would have at that row, and the points the crash left beyond it. Once it is past those there is no trace. */
  lemma ResumeCatchesUp(s: State, t: State, n: nat, part: seq<Id>, batch: nat, probe: Probe, m: nat)
    requires ScanReady(s) && CutAt(s, t, n, part) && t.phase.Idle?
    requires Enabled(t, Begin(s.phase.kind, batch, true, probe))
    requires n > 0 || Start(s.checkpoints, s.phase.kind, s.c, true) == s.phase.last
    requires HasPages(Resumed(t, s.phase.kind, batch, probe), m)
    ensures var u, kind := Resumed(t, s.phase.kind, batch, probe), s.phase.kind;
            && Valid(u, PageActs(m))
            && PointsOf(Run(u, PageActs(m)), kind) == PointsAt(s, After(u, m), part)
            && ((forall id :: id in part ==> !Beyond(id, After(u, m))) ==>
                  PointsOf(Run(u, PageActs(m)), kind) == PointsAt(s, After(u, m), []))
            && (m > 0 && batch >= s.phase.batch ==> PointsOf(Run(u, PageActs(m)), kind) == PointsAt(s, After(u, m), []))
  {
    hide Page, SqlRows, GenerationName, Boundary, PagesLeft, PagePoints, Written, Next, Enabled, PointsAt;
    var kind := s.phase.kind;
    var u := Resumed(t, kind, batch, probe);
    ResumeStartsAtIff(s, t, n, part, batch, probe);
    hide CutAt, Resumed;
    ScanSteps(u, m);
    StoredApart(u, kind, PointsAt(u, After(u, m), []));
    CaughtUp(s, n, part, u, m);
  }

  // ── what all the crashes of a migration cost ───────────────────────────────

  predicate IsPut(a: Action) { a.PutPage? || a.PutPart? }

  /** The step loses a page of this kind's backfill: an upsert cut short or rejected, or a crash before the checkpoint. */
  predicate IsCut(s: State, a: Action, kind: Kind) {
    AtWork(s, kind) && (a.PutPart? || (a.Crash? && s.phase.Landed?))
  }

  /** Pages of this kind put, whole or in part. */
  ghost function Puts(s: State, acts: seq<Action>, kind: Kind): nat {
    if acts == [] then 0 else
      var shorter, last := acts[..|acts| - 1], acts[|acts| - 1];
      Puts(s, shorter, kind) + if IsPut(last) && AtWork(Run(s, shorter), kind) then 1 else 0
  }

  ghost function Cuts(s: State, acts: seq<Action>, kind: Kind): nat {
    if acts == [] then 0 else
      var shorter, last := acts[..|acts| - 1], acts[|acts| - 1];
      Cuts(s, shorter, kind) + if IsCut(Run(s, shorter), last, kind) then 1 else 0
  }

  /** Every backfill of this kind that begins goes on from the checkpoint if there is one, with pages of `batch` rows or
      more. */
  ghost predicate GoesOn(s: State, acts: seq<Action>, kind: Kind, batch: nat) {
    acts == [] ||
    var shorter, last := acts[..|acts| - 1], acts[|acts| - 1];
    && GoesOn(s, shorter, kind, batch)
    && (last.Begin? && last.kind == kind ==>
          last.batch >= batch && (last.resume || CheckpointFor(kind, s.c) !in Run(s, shorter).checkpoints))
  }

  /** How many pages n rows take. */
  function PagesOf(n: nat, batch: nat): nat
    requires batch >= 1
  {
    if n == 0 then 0 else if n <= batch then 1 else 1 + PagesOf(n - batch, batch)
  }

  function Position(s: State, kind: Kind): Option<Id> { Start(s.checkpoints, kind, s.c, true) }

  /** A backfill of this kind stands at its checkpoint, or is one page ahead of it. */
  ghost predicate OnTrack(s: State, kind: Kind, batch: nat) {
    AtWork(s, kind) ==>
      match s.phase
      case Opening(_, size, resume) => size >= batch && Start(s.checkpoints, kind, s.c, resume) == Position(s, kind)
      case Scanning(_, size, last) => size >= batch && last == Position(s, kind)
      case Landed(_, size, hi) =>
        var page := Page(RowsOf(s, kind).Keys, Position(s, kind), size);
        size >= batch && page != [] && hi == page[|page| - 1]
      case _ => true
  }

  /** The pages still to put. */
  ghost function Left(s: State, kind: Kind, batch: nat): int
    requires batch >= 1
  {
    PagesOf(|Rest(RowsOf(s, kind).Keys, Position(s, kind))|, batch) - if s.phase.Landed? && AtWork(s, kind) then 1 else 0
  }

  lemma {:induction false} MoreRowsMorePages(m: nat, n: nat, batch: nat)
    requires batch >= 1 && m <= n
    ensures PagesOf(m, batch) <= PagesOf(n, batch)
  {
    if m > batch { MoreRowsMorePages(m - batch, n - batch, batch); }
  }

  lemma PagesFall(n: nat, m: nat, size: nat, batch: nat)
    requires 1 <= batch <= size && m < n && (m == 0 || m + size <= n)
    ensures PagesOf(m, batch) + 1 <= PagesOf(n, batch)
  {
    if m > 0 { MoreRowsMorePages(m, n - batch, batch); }
  }

  /** A page checkpointed is a page fewer to put. */
  lemma PageIsOneFewer(ids: set<Id>, last: Option<Id>, size: nat, batch: nat)
    requires 1 <= batch <= size && Page(ids, last, size) != []
    ensures var page := Page(ids, last, size);
            PagesOf(|Rest(ids, Some(page[|page| - 1]))|, batch) + 1 <= PagesOf(|Rest(ids, last)|, batch)
  {
    var page := Page(ids, last, size);
    PageSize(ids, last, size);
    PageWhole(ids, last, size);
    hide Page, Rest;
    PagesFall(|Rest(ids, last)|, |Rest(ids, Some(page[|page| - 1]))|, size, batch);
  }

  /** A page is full unless it is the last. */
  lemma PageWhole(ids: set<Id>, last: Option<Id>, size: nat)
    requires size >= 1 && Page(ids, last, size) != []
    ensures |Page(ids, last, size)| == size || |Page(ids, last, size)| == |Rest(ids, last)|
  {
    AscendingSize(Sorted(Rest(ids, last)));
  }

  lemma OtherWorkOnTrack(s: State, a: Action, kind: Kind, batch: nat)
    requires batch >= 1 && Enabled(s, a) && IsCommand(a) && !AtWork(s, kind)
    requires a.Begin? && a.kind == kind ==> a.batch >= batch && (a.resume || CheckpointFor(kind, s.c) !in s.checkpoints)
    ensures OnTrack(Next(s, a), kind, batch) && Left(Next(s, a), kind, batch) == Left(s, kind, batch)
  {
    hide SqlRows, Page, PagePoints, GenerationName, Expanded, Green, Activated, BlockedOutbox, Collected, Kept,
         Eligible, Rest, PagesOf, Points;
    assert CheckpointFor(Memory, s.c) != CheckpointFor(Chunk, s.c);
  }

  lemma OwnWorkOnTrack(s: State, a: Action, kind: Kind, batch: nat)
    requires batch >= 1 && Enabled(s, a) && IsCommand(a) && AtWork(s, kind) && OnTrack(s, kind, batch)
    ensures OnTrack(Next(s, a), kind, batch)
    ensures (if IsPut(a) then 1 else 0) + Left(Next(s, a), kind, batch)
              <= Left(s, kind, batch) + if IsCut(s, a, kind) then 1 else 0
  {
    hide SqlRows, Page, PagePoints, GenerationName, Expanded, Green, Activated, BlockedOutbox, Collected, Kept,
         Eligible, Rest, PagesOf, Points;
    if a.WriteCheckpoint? {
      PageIsOneFewer(RowsOf(s, kind).Keys, Position(s, kind), s.phase.batch, batch);
    }
  }

  /** Over whole runs, both kinds' backfills crashed and resumed any number of times with any page sizes from `batch` up:
      the pages put are at most the pages the table has beyond the checkpoint at the start, and one more for each page
      that a crash or a rejected upsert cut off before its own checkpoint. */
  lemma {:induction false} CutsCostOnePageEach(s: State, acts: seq<Action>, kind: Kind, batch: nat)
    requires s.phase.Idle? && batch >= 1 && Valid(s, acts) && CommandsOnly(acts) && GoesOn(s, acts, kind, batch)
    ensures OnTrack(Run(s, acts), kind, batch) && Run(s, acts).c == s.c && Run(s, acts).sql == s.sql
    ensures Puts(s, acts, kind) + Left(Run(s, acts), kind, batch) <= Left(s, kind, batch) + Cuts(s, acts, kind)
    ensures Puts(s, acts, kind) <= PagesOf(|Rest(RowsOf(s, kind).Keys, Position(s, kind))|, batch) + Cuts(s, acts, kind)
  {
    hide Next, Enabled, OnTrack, IsCut, SqlRows, Position, Rest, PagesOf;
    if acts == [] {
      IdleOnTrack(s, kind, batch);
    } else {
      var shorter, last := acts[..|acts| - 1], acts[|acts| - 1];
      CutsCostOnePageEach(s, shorter, kind, batch);
      var t := Run(s, shorter);
      assert IsCommand(last);
      SqlKept(t, last);
      if AtWork(t, kind) { OwnWorkOnTrack(t, last, kind, batch); } else { OtherWorkOnTrack(t, last, kind, batch); }
      assert !AtWork(t, kind) ==> !IsCut(t, last, kind) by { NoWorkNoCut(t, last, kind); }
    }
    LeftIsNatural(Run(s, acts), kind, batch);
  }

  lemma IdleOnTrack(s: State, kind: Kind, batch: nat)
    requires s.phase.Idle?
    ensures OnTrack(s, kind, batch)
  {
  }

  lemma NoWorkNoCut(s: State, a: Action, kind: Kind)
    ensures IsCut(s, a, kind) ==> AtWork(s, kind)
  {
  }

  lemma LeftIsNatural(s: State, kind: Kind, batch: nat)
    requires batch >= 1 && OnTrack(s, kind, batch)
    ensures Left(s, kind, batch) >= 0
  {
    hide SqlRows, Page, Rest, PagesOf;
    if s.phase.Landed? && AtWork(s, kind) {
      PageIsOneFewer(RowsOf(s, kind).Keys, Position(s, kind), s.phase.batch, batch);
    }
  }

  // ── when a completed backfill is the full build ────────────────────────────

  /** Since the collection was opened in `s` either that scan is under way, or at its end, or it is over. */
  ghost predicate SinceOpen(s: State, t: State)
    requires s.phase.Scanning?
  {
    match t.phase
    case Scanning(_, _, _) => exists n, part :: CutAt(s, t, n, part) && ScanPhase(s, t, n, part)
    case Landed(_, _, _) => exists n, part :: CutAt(s, t, n, part) && ScanPhase(s, t, n, part)
    case Sweeping(_, complete) => complete ==> exists n :: AtEnd(s, t, n)
    case _ => true
  }

  ghost predicate AtEnd(s: State, t: State, n: nat)
    requires s.phase.Scanning?
  {
    && HasPages(s, n) && PageAfter(s, n) == []
    && t == ScanAt(s, After(s, n), [], Sweeping(s.phase.kind, true))
  }

  lemma SinceOpenStep(s: State, t: State, a: Action)
    requires ScanReady(s) && SinceOpen(s, t) && Enabled(t, a) && a != Open
    ensures SinceOpen(s, Next(t, a))
  {
    hide ScanAt, Page, SqlRows, GenerationName, Boundary, PagesLeft, PagePoints, Kept, Expanded, Green, Activated,
         BlockedOutbox, Collected, Start, Eligible, Points;
    if (t.phase.Scanning? || t.phase.Landed?) && (a.PutPage? || a.WriteCheckpoint? || a.EndScan?) {
      var n, part :| CutAt(s, t, n, part) && ScanPhase(s, t, n, part);
      if a.EndScan? {
        EndsAt(s, t, n, part);
      } else {
        var m, next := CutStep(s, t, n, part, a);
      }
    }
  }

  lemma EndsAt(s: State, t: State, n: nat, part: seq<Id>)
    requires ScanReady(s) && CutAt(s, t, n, part) && ScanPhase(s, t, n, part) && Enabled(t, EndScan)
    ensures AtEnd(s, Next(t, EndScan), n)
  {
    hide Page, SqlRows, PointsAt, GenerationName, Boundary, PagesLeft, CheckpointsAt;
    PageOfStanding(s, n);
  }

  lemma {:induction false} SinceOpenAlways(s: State, acts: seq<Action>)
    requires ScanReady(s) && Valid(s, acts) && Open !in acts
    ensures SinceOpen(s, Run(s, acts))
  {
    hide Next, Enabled, ScanAt, GenerationName, PagesLeft, Boundary, Page, SqlRows;
    if acts == [] {
      StandsAtStart(s);
      NoPagesYet(RowsOf(s, s.phase.kind).Keys, s.phase.last, s.phase.batch);
      assert CutAt(s, s, 0, []) && ScanPhase(s, s, 0, []);
    } else {
      SinceOpenAlways(s, acts[..|acts| - 1]);
      assert acts[|acts| - 1] in acts;
      SinceOpenStep(s, Run(s, acts[..|acts| - 1]), acts[|acts| - 1]);
    }
  }

  /** What the sweep at the end of a scan leaves. */
  lemma EndIsSwept(s: State, t: State, n: nat)
    requires ScanReady(s) && AtEnd(s, t, n)
    ensures var kind := s.phase.kind;
            PointsOf(Next(t, Sweep), kind) == Swept(PointsOf(s, kind), kind, RowsOf(s, kind), s.c, s.phase.last)
  {
    hide Page, SqlRows, GenerationName, Boundary, PagesLeft, Written, Collected, Swept, PagePoints, Rest;
    var kind := s.phase.kind;
    var points, rows := PointsOf(s, kind), RowsOf(s, kind);
    NextSweepPoints(t, kind);
    StoredApart(s, kind, PointsAt(s, After(s, n), []));
    assert PointsOf(t, kind) == PointsOf(Store(s, kind, PointsAt(s, After(s, n), [])), kind);
    NoPageNoPoints(Written(points, kind, rows, s.c, s.phase.last, After(s, n)), kind, rows, s.c);
    PagesGoUp(rows.Keys, s.phase.last, s.phase.batch, n);
    PageIsNextStretch(rows.Keys, After(s, n), s.phase.batch);
    EndOfTableIsSwept(points, kind, rows, s.c, s.phase.last, After(s, n));
  }

  lemma BatchStep(s: State, a: Action)
    requires Enabled(s, a) && (s.phase.Opening? ==> s.phase.batch >= 1)
    ensures Next(s, a).phase.Opening? ==> Next(s, a).phase.batch >= 1
  {
    hide PageOf, Green, Expanded, Activated, BlockedOutbox, SqlRows, Store, PointsOf, Start, Kept, Eligible;
  }

  lemma {:induction false} BatchesAlways(s: State, acts: seq<Action>)
    requires s.phase.Idle? && Valid(s, acts)
    ensures Run(s, acts).phase.Opening? ==> Run(s, acts).phase.batch >= 1
  {
    hide Next, Enabled;
    if acts != [] {
      BatchesAlways(s, acts[..|acts| - 1]);
      BatchStep(Run(s, acts[..|acts| - 1]), acts[|acts| - 1]);
    }
  }

  lemma OpensReady(m: State)
    requires m.phase.Opening? && m.phase.batch >= 1
    ensures var s, kind := Next(m, Open), m.phase.kind;
            && ScanReady(s) && s.phase == Scanning(kind, m.phase.batch, Start(m.checkpoints, kind, m.c, m.phase.resume))
            && s.sql == m.sql && s.c == m.c && PointsOf(s, kind) == PointsOf(m, kind)
  {
    hide SqlRows, GenerationName, Points, Start;
    StoredApart(m, m.phase.kind, PointsOf(m, m.phase.kind));
  }

  /** Over any run whatever, app writes and old checkpoints included: let `before` end at the last opening of the
      collection before a backfill completes. What counts is that opening alone. The result keeps what was there up to
      the scan's start and is eligible, and it is the full build exactly when every eligible row up to there already
      had its fresh point. */
  lemma CompletedBackfillIff(s: State, before: seq<Action>, after: seq<Action>, kind: Kind)
    requires s.phase.Idle? && Valid(s, before + [Open] + after) && Open !in after
    requires after != [] && after[|after| - 1] == Sweep
    requires Run(s, before + [Open] + after[..|after| - 1]).phase == Sweeping(kind, true)
    ensures var m := Run(s, before);
            var end := Run(s, before + [Open] + after);
            && m.phase.Opening? && m.phase.kind == kind
            && var lo, points, rows := Start(m.checkpoints, kind, m.c, m.phase.resume), PointsOf(m, kind), RowsOf(m, kind);
               && PointsOf(end, kind) == Swept(points, kind, rows, m.c, lo)
               && (PointsOf(end, kind) == Built(kind, rows, m.c) <==> FreshUpTo(points, kind, rows, m.c, lo))
  {
    hide Enabled, Next, SqlRows, GenerationName, Points, Swept, Built, ScanAt, Page, Start, FreshPoint, Eligible,
         PagesLeft, Boundary;
    var shorter := after[..|after| - 1];
    var m, u := Run(s, before), Run(s, before + [Open]);
    assert before + [Open] + after == (before + [Open] + shorter) + [Sweep];
    RunSplits(s, before + [Open] + shorter, [Sweep]);
    RunSplits(s, before + [Open], shorter);
    RunSplits(s, before, [Open]);
    OpenedFrom(s, before);
    assert u == Next(m, Open);
    OpensReady(m);
    SinceOpenAlways(u, shorter);
    var t := Run(u, shorter);
    var n :| AtEnd(u, t, n);
    assert t.phase.kind == u.phase.kind by { EndsOwn(u, t, n); }
    EndIsSwept(u, t, n);
    assert Run(s, before + [Open] + after) == Next(t, Sweep);
    ResumeIsFaithfulIff(PointsOf(m, kind), kind, RowsOf(m, kind), m.c, u.phase.last);
  }

  lemma EndsOwn(s: State, t: State, n: nat)
    requires s.phase.Scanning? && AtEnd(s, t, n)
    ensures t.phase == Sweeping(s.phase.kind, true)
  {
  }

  lemma OpenedFrom(s: State, before: seq<Action>)
    requires s.phase.Idle? && Valid(s, before + [Open])
    ensures Run(s, before).phase.Opening? && Run(s, before).phase.batch >= 1
    ensures Run(s, before + [Open]) == Next(Run(s, before), Open)
  {
    assert (before + [Open])[..|before|] == before;
    BatchesAlways(s, before);
  }

  // ── the commands of an Install are runs of the machine ─────────────────────

  /** The install between two commands. */
  ghost function StateOf(install: Install, c: Contract): State
    reads install
  {
    State(install.sqlite, install.db, install.sql, install.collections, install.outbox, install.checkpoints, c, Idle)
  }

  function BackfillActs(kind: Kind, batch: nat, resume: bool, probe: Probe, pages: nat, complete: bool,
                        landed: set<Id>): seq<Action> {
    [Begin(kind, batch, resume, probe), Open] + PageActs(pages)
    + [if complete then EndScan else PutPart(landed, false), Sweep]
  }

  /** The last two steps of a backfill. */
  lemma SweptAt(s: State, n: nat, stop: Action, part: seq<Id>)
    requires ScanReady(s) && HasPages(s, n)
    requires if PageAfter(s, n) == [] then stop == EndScan && part == []
             else stop.PutPart? && !stop.crash && PagePoints(s.phase.kind, part, RowsOf(s, s.phase.kind), s.c)
                         == PagePoints(s.phase.kind, Kept(PageAfter(s, n), stop.landed), RowsOf(s, s.phase.kind), s.c)
    ensures var t, kind := StandingAt(s, After(s, n)), s.phase.kind;
            && Valid(t, [stop, Sweep])
            && Run(t, [stop, Sweep])
                 == Store(s, kind, Collected(PointsAt(s, After(s, n), part), RowsOf(s, kind)))
                      .(checkpoints := CheckpointsAt(s, After(s, n)), phase := Idle)
  {
    hide Page, SqlRows, GenerationName, Boundary, PagesLeft, PagePoints, Kept, Collected, Written;
    var t, kind := StandingAt(s, After(s, n)), s.phase.kind;
    PageOfStanding(s, n);
    if PageAfter(s, n) != [] { PutAt(s, n, Kept(PageAfter(s, n), stop.landed)); }
    var u := Next(t, stop);
    assert u == ScanAt(s, After(s, n), part, Sweeping(kind, stop.EndScan?));
    StoredApart(s, kind, PointsAt(s, After(s, n), part));
    assert PointsOf(u, kind) == PointsOf(Store(s, kind, PointsAt(s, After(s, n), part)), kind);
    Overwrites(s.collections, GenerationName(kind, s.c), PointsAt(s, After(s, n), part),
               Collected(PointsAt(s, After(s, n), part), RowsOf(s, kind)));
    Unrolled(t, [stop, Sweep], [t, u, Next(u, Sweep)]);
  }

  /** The state a backfill leaves, from the report it gives. */
  function Backfilled(s: State, kind: Kind, probe: Probe, report: BackfillReport, rejected: seq<Id>): State
    requires Expanded(s.sqlite, s.db, s.c, probe).Some?
  {
    Store(s, kind, AfterScan(PointsOf(s, kind), kind, RowsOf(s, kind), s.c, report, rejected))
      .(db := Expanded(s.sqlite, s.db, s.c, probe).value,
        checkpoints := if report.lastId.None? then s.checkpoints
                       else s.checkpoints[CheckpointFor(kind, s.c) := report.lastId.value])
  }

  lemma SameEnd(s: State, b: State, report: BackfillReport, rejected: seq<Id>, pages: nat, probe: Probe)
    requires ScanReady(b) && Expanded(s.sqlite, s.db, s.c, probe).Some? && s.phase.Idle?
    requires b == Store(s, b.phase.kind, PointsOf(s, b.phase.kind))
                    .(db := Expanded(s.sqlite, s.db, s.c, probe).value, phase := b.phase)
    requires PointsOf(b, b.phase.kind) == PointsOf(s, b.phase.kind) && b.phase.last == report.resumedFrom
    requires Scanned(report, rejected, pages, b.phase.batch, b.phase.kind, RowsOf(s, b.phase.kind), s.c)
    ensures var kind := b.phase.kind;
            Store(b, kind, Collected(PointsAt(b, After(b, pages), rejected), RowsOf(b, kind)))
              .(checkpoints := CheckpointsAt(b, After(b, pages)), phase := Idle)
            == Backfilled(s, kind, probe, report, rejected)
  {
    hide Page, SqlRows, GenerationName, Boundary, PagesLeft, PagePoints, Kept, Collected, Written, Expanded, PartOf;
    var kind := b.phase.kind;
    PagesGoUp(RowsOf(s, kind).Keys, b.phase.last, b.phase.batch, pages);
    NoPagesYet(RowsOf(s, kind).Keys, b.phase.last, b.phase.batch);
    Overwrites(s.collections, GenerationName(kind, s.c), PointsOf(s, kind),
               Collected(PointsAt(b, After(b, pages), rejected), RowsOf(b, kind)));
  }

  lemma BackfillRuns(s: State, kind: Kind, batch: nat, resume: bool, probe: Probe, report: BackfillReport,
                     rejected: seq<Id>, pages: nat) returns (landed: set<Id>)
    requires Enabled(s, Begin(kind, batch, resume, probe))
             && report.resumedFrom == Start(s.checkpoints, kind, s.c, resume)
    requires Scanned(report, rejected, pages, batch, kind, RowsOf(s, kind), s.c)
    ensures Valid(s, BackfillActs(kind, batch, resume, probe, pages, report.complete, landed))
    ensures Run(s, BackfillActs(kind, batch, resume, probe, pages, report.complete, landed))
              == Backfilled(s, kind, probe, report, rejected)
  {
    hide Page, SqlRows, GenerationName, Boundary, PagesLeft, PagePoints, Kept, Collected, Written, Expanded, Start,
         StandingAt, Run, Valid;
    var begin := Begin(kind, batch, resume, probe);
    var a := Next(s, begin);
    StoredApart(a, kind, PointsOf(a, kind));
    var b := Next(a, Open);
    assert PointsOf(b, kind) == PointsOf(s, kind);
    Unrolled(s, [begin, Open], [s, a, b]);
    ScanSteps(b, pages);
    RunJoins(s, [begin, Open], PageActs(pages));
    landed := {};
    if !report.complete {
      landed :| PagePoints(kind, rejected, RowsOf(s, kind), s.c)
                == PagePoints(kind, Kept(PageAfter(b, pages), landed), RowsOf(s, kind), s.c);
    }
    var stop := if report.complete then EndScan else PutPart(landed, false);
    SweptAt(b, pages, stop, rejected);
    RunJoins(s, [begin, Open] + PageActs(pages), [stop, Sweep]);
    SameEnd(s, b, report, rejected, pages, probe);
  }

  lemma NoSteps(s: State)
    ensures Valid(s, []) && Run(s, []) == s
  {
  }

  lemma {:induction false} BackfillActsAreCommands(kind: Kind, batch: nat, resume: bool, probe: Probe, pages: nat,
                                                   complete: bool, landed: set<Id>)
    ensures CommandsOnly(PageActs(pages))
    ensures CommandsOnly(BackfillActs(kind, batch, resume, probe, pages, complete, landed))
  {
    if pages > 0 { BackfillActsAreCommands(kind, batch, resume, probe, pages - 1, complete, landed); }
  }

  /** Whatever the store answers: a backfill is its run of the machine, or does nothing. */
  method BackfillIsARun(install: Install, c: Contract, kind: Kind, batch: int, resume: bool, probe: Probe,
                        answers: seq<StoreAnswer>)
    returns (outcome: BackfillOutcome, ghost acts: seq<Action>)
    modifies install
    ensures Valid(old(StateOf(install, c)), acts) && StateOf(install, c) == Run(old(StateOf(install, c)), acts)
    ensures CommandsOnly(acts)
    ensures !outcome.Ran? ==> acts == []
    ensures outcome.Ran? ==> batch >= 1 && exists pages, landed ::
              acts == BackfillActs(kind, batch, resume, probe, pages, outcome.report.complete, landed)
  {
    hide Valid, Run, Expanded, AfterScan, SqlRows, GenerationName, Scanned, Rebuilt, Start, BackfillActs, Counted, Points,
         Eligible, OnlyAt;
    ghost var s := StateOf(install, c);
    ghost var rejected, pages;
    outcome, rejected, pages := install.Backfill(c, kind, batch, resume, probe, answers);
    if outcome.Ran? {
      ghost var landed := BackfillRuns(s, kind, batch, resume, probe, outcome.report, rejected, pages);
      acts := BackfillActs(kind, batch, resume, probe, pages, outcome.report.complete, landed);
      BackfillActsAreCommands(kind, batch, resume, probe, pages, outcome.report.complete, landed);
    } else {
      acts := [];
      NoSteps(s);
    }
  }

  lemma FlipRuns(s: State) returns (acts: seq<Action>)
    requires s.phase.Idle? && forall kind :: Green(kind, s.sql, s.db.rows, s.collections, s.c)
    ensures acts == [Audit(Memory), Audit(Chunk), Flip] && Valid(s, acts)
    ensures Run(s, acts) == s.(db := s.db.(rows := Activated(s.db.rows, s.c, true)), outbox := BlockedOutbox(s.outbox, s.c))
  {
    hide Green, Activated, BlockedOutbox;
    acts := [Audit(Memory), Audit(Chunk), Flip];
    var one := Next(s, Audit(Memory));
    var two := Next(one, Audit(Chunk));
    Unrolled(s, acts, [s, one, two, Next(two, Flip)]);
  }

  /** A cutover that flips is the two audits and the flip; any other does nothing. */
  method CutoverIsARun(install: Install, c: Contract, yes: bool)
    returns (outcome: CutoverOutcome, ghost acts: seq<Action>)
    modifies install
    ensures acts == if outcome.Flipped? then [Audit(Memory), Audit(Chunk), Flip] else []
    ensures Valid(old(StateOf(install, c)), acts) && StateOf(install, c) == Run(old(StateOf(install, c)), acts)
  {
    hide Green, Activated, BlockedOutbox, Run, Valid;
    ghost var s := StateOf(install, c);
    acts := [];
    NoSteps(s);
    outcome := install.Cutover(c, yes);
    if outcome.Flipped? {
      forall kind ensures Green(kind, s.sql, s.db.rows, s.collections, c) {
        assert s.sql == install.sql && s.collections == install.collections;
      }
      acts := FlipRuns(s);
    }
  }
}
