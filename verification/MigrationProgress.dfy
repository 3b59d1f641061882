/** When the migration can be finished at all: a run of commands to the flip exists exactly under two conditions
    an operator can read off the database before starting. */
module MigrationProgress {
  import opened Common
  import opened Manifest
  import opened Ladder
  import opened Eligibility
  import opened Audit
  import opened Verify
  import opened Keyset
  import opened Backfill
  import opened MigrationCli
  import opened MigrationRuns
  import opened MigrationScans

  /** Everything but the collection of one kind and the phase (and checkpoints) is as it was. */
  ghost predicate BuildsOnly(s: State, t: State, kind: Kind) {
    && t.db == s.db && t.sql == s.sql && t.c == s.c && t.sqlite == s.sqlite
    && forall other :: other != kind ==> PointsOf(t, other) == PointsOf(s, other)
  }

  /** One page put and checkpointed. */
  lemma PageRun(s: State) returns (acts: seq<Action>)
    requires s.phase.Scanning? && s.phase.batch >= 1 && PageOf(s) != []
    requires FreshUpTo(PointsOf(s, s.phase.kind), s.phase.kind, RowsOf(s, s.phase.kind), s.c, s.phase.last)
    ensures Valid(s, acts) && CommandsOnly(acts)
    ensures var t, kind := Run(s, acts), s.phase.kind;
            && BuildsOnly(s, t, kind)
            && t.phase == Scanning(kind, s.phase.batch, Some(PageOf(s)[|PageOf(s)| - 1]))
            && FreshUpTo(PointsOf(t, kind), kind, RowsOf(t, kind), t.c, t.phase.last)
  {
    hide SqlRows, Points, GenerationName, Page, PagePoints, FreshUpTo;
    var kind := s.phase.kind;
    var page := PageOf(s);
    StoredApart(s, kind, PointsOf(s, kind) + PagePoints(kind, page, RowsOf(s, kind), s.c));
    PageFreshens(PointsOf(s, kind), kind, RowsOf(s, kind), s.c, s.phase.last, s.phase.batch);
    acts := [PutPage, WriteCheckpoint];
    Unrolled(s, acts, [s, Next(s, PutPage), Next(Next(s, PutPage), WriteCheckpoint)]);
  }

  /** The scan to the end of the table. */
  lemma {:induction false} ScanRun(s: State) returns (acts: seq<Action>)
    requires s.phase.Scanning? && s.phase.batch >= 1
    requires FreshUpTo(PointsOf(s, s.phase.kind), s.phase.kind, RowsOf(s, s.phase.kind), s.c, s.phase.last)
    ensures Valid(s, acts) && CommandsOnly(acts)
    ensures var t, kind := Run(s, acts), s.phase.kind;
            && BuildsOnly(s, t, kind) && t.phase == Sweeping(kind, true)
            && FreshAll(PointsOf(t, kind), kind, RowsOf(t, kind), t.c)
    decreases Rest(RowsOf(s, s.phase.kind).Keys, s.phase.last)
  {
    hide SqlRows, Points, GenerationName, Page, FreshUpTo, FreshAll, Rest, Run, Valid;
    var kind := s.phase.kind;
    PageIsNextStretch(RowsOf(s, kind).Keys, s.phase.last, s.phase.batch);
    if PageOf(s) == [] {
      PageFreshens(PointsOf(s, kind), kind, RowsOf(s, kind), s.c, s.phase.last, s.phase.batch);
      OneStep(s, EndScan);
      acts := [EndScan];
    } else {
      hide Enabled, Next;
      var first := PageRun(s);
      var rest := ScanRun(Run(s, first));
      RunJoins(s, first, rest);
      acts := first + rest;
    }
  }

  /** One whole fresh backfill of a kind. */
  lemma BackfillRun(s: State, kind: Kind, probe: Probe) returns (acts: seq<Action>)
    requires s.phase.Idle? && Expanded(s.sqlite, s.db, s.c, probe).Some?
    ensures Valid(s, acts) && CommandsOnly(acts)
    ensures var t := Run(s, acts);
            && t.phase.Idle? && t.db == Expanded(s.sqlite, s.db, s.c, probe).value
            && t.sql == s.sql && t.c == s.c && t.sqlite == s.sqlite
            && PointsOf(t, kind) == Built(kind, RowsOf(s, kind), s.c)
            && forall other :: other != kind ==> PointsOf(t, other) == PointsOf(s, other)
  {
    hide SqlRows, Points, GenerationName, Page, FreshUpTo, FreshAll, Expanded, Run, Valid, Built, Collected;
    var begin := Begin(kind, 1, false, probe);
    var a := Next(s, begin);
    OneStep(s, begin);
    StoredApart(a, kind, PointsOf(a, kind));
    var b := Next(a, Open);
    OneStep(a, Open);
    RunJoins(s, [begin], [Open]);
    NothingBelowNone(PointsOf(b, kind), kind, RowsOf(b, kind), b.c);
    var scan := ScanRun(b);
    RunJoins(s, [begin] + [Open], scan);
    var d := Run(b, scan);
    NextSweepPoints(d, kind);
    forall other | other != kind ensures PointsOf(Next(d, Sweep), other) == PointsOf(s, other) {
      assert PointsOf(a, other) == PointsOf(s, other);
      assert PointsOf(b, other) == PointsOf(a, other);
      assert PointsOf(d, other) == PointsOf(b, other);
    }
    FreshCollected(PointsOf(d, kind), kind, RowsOf(d, kind), d.c);
    OneStep(d, Sweep);
    RunJoins(s, [begin] + [Open] + scan, [Sweep]);
    acts := [begin] + [Open] + scan + [Sweep];
  }

  // ── the two conditions ─────────────────────────────────────────────────────

  /** An eligible row at revision 0 is in the way unless its target already holds a point the audit accepts for it,
      through a revision field that reads as zero and is no whole number: no command can write one. */
  ghost predicate ZeroRowsHeld(kind: Kind, points: Collection, rows: map<Id, Record>, c: Contract) {
    forall id :: id in Eligible(rows) && rows[id].revision == 0 ==>
      id in points && ReadsZero(points[id].revision) && Accepted(kind, id, points[id], rows[id], c)
  }

  /** The expand can name the targets: a SQLite install already at version 3 must have rows for this contract, because
      there the ladder writes none. */
  ghost predicate TargetsNamed(s: State) {
    s.sqlite && s.db.version == SCHEMA_VERSION ==> forall kind :: ManifestCurrent(kind, s.db.rows, s.c)
  }

  ghost predicate CanFinish(s: State) {
    TargetsNamed(s) && forall kind :: ZeroRowsHeld(kind, PointsOf(s, kind), RowsOf(s, kind), s.c)
  }

  ghost predicate ReachesFlip(s: State, acts: seq<Action>) {
    Valid(s, acts) && CommandsOnly(acts) && acts != [] && acts[|acts| - 1] == Flip
  }

  lemma ExpandTwice(sqlite: bool, db: Db, c: Contract, probe: Probe)
    requires Expanded(sqlite, db, c, probe).Some?
    ensures Expanded(sqlite, Expanded(sqlite, db, c, probe).value, c, GOOD_PROBE).Some?
    ensures forall kind :: (sqlite && db.version == SCHEMA_VERSION ==> ManifestCurrent(kind, db.rows, c)) ==>
              ManifestCurrent(kind, Expanded(sqlite, db, c, probe).value.rows, c)
              && ManifestCurrent(kind, Expanded(sqlite, Expanded(sqlite, db, c, probe).value, c, GOOD_PROBE).value.rows, c)
  {
    var once := Expanded(sqlite, db, c, probe).value;
    hide Activated;
    assert sqlite ==> Accepts(once, GOOD_PROBE);
    hide Expanded;
    forall kind | sqlite && db.version == SCHEMA_VERSION ==> ManifestCurrent(kind, db.rows, c)
      ensures ManifestCurrent(kind, once.rows, c)
      ensures ManifestCurrent(kind, Expanded(sqlite, once, c, GOOD_PROBE).value.rows, c)
    {
      ExpandNamesTargetIff(sqlite, db, c, probe, kind);
      ExpandNamesTargetIff(sqlite, once, c, GOOD_PROBE, kind);
    }
  }

  /** Both kinds verified, then the flip. */
  lemma AuditAndFlip(s: State) returns (acts: seq<Action>)
    requires s.phase.Idle? && forall kind :: Green(kind, s.sql, s.db.rows, s.collections, s.c)
    ensures ReachesFlip(s, acts)
  {
    hide Green, Run, Valid;
    acts := FlipRuns(s);
  }

  lemma {:induction false} ReachLater(s: State, acts: seq<Action>, finish: seq<Action>)
    requires Valid(s, acts) && CommandsOnly(acts) && ReachesFlip(Run(s, acts), finish)
    ensures ReachesFlip(s, acts + finish)
  {
    RunJoins(s, acts, finish);
  }

  /** Backfill memory, backfill chunk, verify, flip: from any idle state without an eligible row at revision 0,
      whatever the two collections held. */
  lemma FinishRun(s: State, probe: Probe) returns (acts: seq<Action>)
    requires s.phase.Idle? && RealContract(s.c) && TargetsNamed(s) && forall kind :: NoRevisionZero(RowsOf(s, kind))
    requires Expanded(s.sqlite, s.db, s.c, probe).Some?
    ensures ReachesFlip(s, acts)
  {
    hide Valid, Run, SqlRows, GenerationName, Expanded, Built, ManifestCurrent, ReadsExact, Eligible, ReachesFlip, Points;
    ExpandTwice(s.sqlite, s.db, s.c, probe);
    var first := BackfillRun(s, Memory, probe);
    var t := Run(s, first);
    var second := BackfillRun(t, Chunk, GOOD_PROBE);
    var u := Run(t, second);
    forall kind ensures Green(kind, u.sql, u.db.rows, u.collections, u.c) {
      assert PointsOf(u, kind) == Built(kind, RowsOf(s, kind), s.c) by { match kind case Memory => case Chunk => }
      BuiltPassesIff(kind, RowsOf(s, kind), s.c);
      assert ManifestCurrent(kind, u.db.rows, u.c);
    }
    var finish := AuditAndFlip(u);
    ReachLater(t, second, finish);
    ReachLater(s, first, second + finish);
    acts := first + (second + finish);
  }

  // ── rows at revision 0 ─────────────────────────────────────────────────────

  /** A page large enough for the whole table. */
  function WholeTable(rows: map<Id, Record>): nat { |rows| + 1 }

  function NotZero(rows: map<Id, Record>): set<Id> { set id | id in Eligible(rows) && rows[id].revision != 0 }

  /** What a backfill leaves that wrote all but the rows at revision 0 before the store rejected its page. */
  function Spared(points: Collection, kind: Kind, rows: map<Id, Record>, c: Contract): Collection {
    Collected(points + PagePoints(kind, Kept(Sorted(rows.Keys), NotZero(rows)), rows, c), rows)
  }

  lemma SparedPut(kind: Kind, rows: map<Id, Record>, c: Contract)
    ensures var put := PagePoints(kind, Kept(Sorted(rows.Keys), NotZero(rows)), rows, c);
            put.Keys == NotZero(rows) && NotZero(rows) <= Eligible(rows)
            && forall id :: id in put ==> put[id] == FreshPoint(kind, id, rows[id], c)
  {
    hide Sorted, FreshPoint, Kept;
  }

  lemma SparedAt(points: Collection, put: Collection, rows: map<Id, Record>, id: Id)
    requires id in Eligible(rows) && (id in put || id in points)
    ensures id in Collected(points + put, rows)
            && Collected(points + put, rows)[id] == if id in put then put[id] else points[id]
  {
  }

  lemma SparedOnly(points: Collection, rows: map<Id, Record>)
    ensures Collected(points, rows).Keys <= Eligible(rows)
  {
  }

  lemma SparedIsGreen(points: Collection, kind: Kind, rows: map<Id, Record>, c: Contract)
    requires RealContract(c) && ZeroRowsHeld(kind, points, rows, c)
    ensures ReadsExact(kind, Spared(points, kind, rows, c), rows, c)
  {
    var put := PagePoints(kind, Kept(Sorted(rows.Keys), NotZero(rows)), rows, c);
    SparedPut(kind, rows, c);
    SparedOnly(points + put, rows);
    hide PagePoints, Kept, Sorted, Collected, Accepted, FreshPoint;
    var spared := Spared(points, kind, rows, c);
    forall id | id in Eligible(rows) ensures id in spared && Accepted(kind, id, spared[id], rows[id], c) {
      SparedAt(points, put, rows, id);
      if rows[id].revision != 0 { FreshIsAccepted(kind, id, rows, c); }
    }
  }

  lemma FreshIsAccepted(kind: Kind, id: Id, rows: map<Id, Record>, c: Contract)
    requires RealContract(c) && id in Eligible(rows) && rows[id].revision != 0
    ensures Accepted(kind, id, FreshPoint(kind, id, rows[id], c), rows[id], c)
  {
  }

  lemma PageIsTable(rows: map<Id, Record>)
    ensures Page(rows.Keys, None, WholeTable(rows)) == Sorted(rows.Keys)
  {
    assert Rest(rows.Keys, None) == rows.Keys;
    assert |rows.Keys| == |rows|;
  }

  /** One backfill cut short by a rejected upsert, and its sweep. */
  lemma SparingRun(s: State, kind: Kind, probe: Probe) returns (acts: seq<Action>)
    requires s.phase.Idle? && Expanded(s.sqlite, s.db, s.c, probe).Some?
    ensures Valid(s, acts) && CommandsOnly(acts)
    ensures var t := Run(s, acts);
            && t.phase.Idle? && t.db == Expanded(s.sqlite, s.db, s.c, probe).value
            && t.sql == s.sql && t.c == s.c && t.sqlite == s.sqlite
            && PointsOf(t, kind) == Spared(PointsOf(s, kind), kind, RowsOf(s, kind), s.c)
            && forall other :: other != kind ==> PointsOf(t, other) == PointsOf(s, other)
  {
    hide SqlRows, Points, GenerationName, Page, Expanded, Run, Valid, Collected, PagePoints, Kept, Spared, Sorted, NotZero;
    var points, rows := PointsOf(s, kind), RowsOf(s, kind);
    var begin := Begin(kind, WholeTable(rows), false, probe);
    var a := Next(s, begin);
    var b := Next(a, Open);
    OpenedOnly(s, kind, begin);
    PageIsTable(rows);
    var put := SparingPut(b);
    var d := Next(b, put);
    acts := [begin, Open, put, Sweep];
    hide Next, Enabled;
    Unrolled(s, acts, [s, a, b, d, Next(d, Sweep)]);
  }

  /** From the start of a scan of the whole table in one page: the page put in part, and the sweep. */
  lemma SparingPut(b: State) returns (put: Action)
    requires b.phase.Scanning? && PageOf(b) == Sorted(RowsOf(b, b.phase.kind).Keys)
    ensures IsCommand(put) && Enabled(b, put) && Enabled(Next(b, put), Sweep)
    ensures var e, kind := Next(Next(b, put), Sweep), b.phase.kind;
            && e.phase.Idle? && e.db == b.db && e.sql == b.sql && e.c == b.c && e.sqlite == b.sqlite
            && PointsOf(e, kind) == Spared(PointsOf(b, kind), kind, RowsOf(b, kind), b.c)
            && forall other :: other != kind ==> PointsOf(e, other) == PointsOf(b, other)
  {
    hide SqlRows, Points, GenerationName, Page, Collected, PagePoints, Kept, Sorted, NotZero;
    var kind := b.phase.kind;
    var points, rows := PointsOf(b, kind), RowsOf(b, kind);
    put := if PageOf(b) == [] then EndScan else PutPart(NotZero(rows), false);
    if PageOf(b) == [] {
      NothingToSpare(points, kind, rows, b.c);
    } else {
      StoredApart(b, kind, points + PagePoints(kind, Kept(PageOf(b), NotZero(rows)), rows, b.c));
    }
    NextSweepPoints(Next(b, put), kind);
  }

  lemma OpenedOnly(s: State, kind: Kind, begin: Action)
    requires begin.Begin? && begin.kind == kind && !begin.resume && Enabled(s, begin)
    ensures var a := Next(s, begin);
            var b := Next(a, Open);
            && Enabled(a, Open) && b.phase == Scanning(kind, begin.batch, None)
            && b.sql == s.sql && b.c == s.c && b.sqlite == s.sqlite
            && b.db == Expanded(s.sqlite, s.db, s.c, begin.probe).value
            && forall any :: PointsOf(b, any) == PointsOf(s, any)
  {
    hide SqlRows, Points, GenerationName, Page, Expanded;
    var a := Next(s, begin);
    StoredApart(a, kind, PointsOf(a, kind));
    forall any ensures PointsOf(Next(a, Open), any) == PointsOf(s, any) {
      assert PointsOf(a, any) == PointsOf(s, any);
      assert PointsOf(Next(a, Open), any) == PointsOf(Store(a, kind, PointsOf(a, kind)), any);
    }
  }

  lemma NothingToSpare(points: Collection, kind: Kind, rows: map<Id, Record>, c: Contract)
    requires Sorted(rows.Keys) == []
    ensures Collected(points, rows) == Spared(points, kind, rows, c)
  {
    assert PagePoints(kind, Kept(Sorted(rows.Keys), NotZero(rows)), rows, c) == map[];
  }

  /** The flip is reached even over rows at revision 0, if their points are there and are spared. */
  lemma FinishSparing(s: State, probe: Probe) returns (acts: seq<Action>)
    requires s.phase.Idle? && RealContract(s.c) && CanFinish(s)
    requires Expanded(s.sqlite, s.db, s.c, probe).Some?
    ensures ReachesFlip(s, acts)
  {
    hide Valid, Run, SqlRows, GenerationName, Expanded, Spared, ManifestCurrent, ReadsExact, Eligible, ReachesFlip, Points,
         ZeroRowsHeld;
    ExpandTwice(s.sqlite, s.db, s.c, probe);
    var first := SparingRun(s, Memory, probe);
    var t := Run(s, first);
    var second := SparingRun(t, Chunk, GOOD_PROBE);
    var u := Run(t, second);
    forall kind ensures Green(kind, u.sql, u.db.rows, u.collections, u.c) {
      assert PointsOf(u, kind) == Spared(PointsOf(s, kind), kind, RowsOf(s, kind), s.c) by {
        match kind case Memory => case Chunk =>
      }
      SparedIsGreen(PointsOf(s, kind), kind, RowsOf(s, kind), s.c);
      assert ManifestCurrent(kind, u.db.rows, u.c);
    }
    var finish := AuditAndFlip(u);
    ReachLater(t, second, finish);
    ReachLater(s, first, second + finish);
    acts := first + (second + finish);
  }

  lemma CheckedIsGreen(s: State, kind: Kind)
    requires ChecksHold(s) && Enabled(s, Flip)
    ensures Green(kind, s.sql, s.db.rows, s.collections, s.c)
  {
    hide Green;
    match kind
    case Memory => assert Memory in s.phase.kinds;
    case Chunk => assert Chunk in s.phase.kinds;
  }

  /** On a SQLite install already at version 3 only a flip changes the database, and a flip needs the rows first. */
  lemma {:induction false} VersionThreeIsFixed(s: State, acts: seq<Action>)
    requires s.phase.Idle? && s.sqlite && s.db.version == SCHEMA_VERSION && Valid(s, acts) && CommandsOnly(acts)
    ensures Run(s, acts).sqlite && Run(s, acts).db.version == SCHEMA_VERSION && Run(s, acts).c == s.c
    ensures Run(s, acts).db == s.db || forall kind :: ManifestCurrent(kind, s.db.rows, s.c)
  {
    hide ManifestCurrent, Activated, SqlRows, ReadsExact, Points, Page, PagePoints, GenerationName;
    if acts != [] {
      var shorter := acts[..|acts| - 1];
      VersionThreeIsFixed(s, shorter);
      ChecksHoldAlways(s, shorter);
      var before := Run(s, shorter);
      assert IsCommand(acts[|acts| - 1]);
      if acts[|acts| - 1].Flip? && before.db == s.db {
        forall kind ensures ManifestCurrent(kind, s.db.rows, s.c) {
          CheckedIsGreen(before, kind);
        }
      }
    }
  }

  /** The migration can be brought to its cutover exactly when CanFinish holds. With no eligible row at revision 0 that
      leaves the manifest's condition alone. */
  lemma CutoverReachableIff(s: State, probe: Probe)
    requires s.phase.Idle? && RealContract(s.c) && Expanded(s.sqlite, s.db, s.c, probe).Some?
    ensures (exists acts :: ReachesFlip(s, acts)) <==> CanFinish(s)
  {
    if CanFinish(s) {
      var acts := FinishSparing(s, probe);
    }
    if exists acts :: ReachesFlip(s, acts) {
      var acts :| ReachesFlip(s, acts);
      FlipNeedsBoth(s, acts);
    }
  }

  lemma FlipNeedsBoth(s: State, acts: seq<Action>)
    requires s.phase.Idle? && ReachesFlip(s, acts)
    ensures CanFinish(s)
  {
    hide SqlRows, GenerationName, Expanded, ReadsExact, Points;
    var shorter := acts[..|acts| - 1];
    var before := Run(s, shorter);
    ChecksHoldAlways(s, shorter);
    CommandsWriteFresh(s, shorter, Memory);
    forall kind ensures Green(kind, before.sql, before.db.rows, before.collections, before.c) {
      CheckedIsGreen(before, kind);
    }
    forall kind ensures ZeroRowsHeld(kind, PointsOf(s, kind), RowsOf(s, kind), s.c) {
      assert Green(kind, before.sql, before.db.rows, before.collections, before.c);
      CommandsWriteFresh(s, shorter, kind);
      forall id | id in Eligible(RowsOf(s, kind)) && RowsOf(s, kind)[id].revision == 0
        ensures id in PointsOf(s, kind) && ReadsZero(PointsOf(s, kind)[id].revision)
                && Accepted(kind, id, PointsOf(s, kind)[id], RowsOf(s, kind)[id], s.c)
      {
        RevisionZeroNeeds(kind, PointsOf(before, kind), RowsOf(before, kind), before.c, id);
      }
    }
    if s.sqlite && s.db.version == SCHEMA_VERSION {
      VersionThreeIsFixed(s, shorter);
      forall kind ensures ManifestCurrent(kind, s.db.rows, s.c) {
        assert Green(kind, before.sql, before.db.rows, before.collections, before.c);
      }
    }
  }
}
