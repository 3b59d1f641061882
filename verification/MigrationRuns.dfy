/** The migration as a state machine: commands at page granularity, a crash possible between any two steps and
    inside every store write, and the app writing only while no command runs. */
module MigrationRuns {
  import opened Common
  import opened Manifest
  import opened Ladder
  import opened Eligibility
  import opened Audit
  import opened Verify
  import opened Keyset
  import opened Backfill
  import opened Outbox
  import opened MigrationCli

  datatype Phase = Idle
                 | Opening(kind: Kind, batch: nat, resume: bool)
                 | Scanning(kind: Kind, batch: nat, last: Option<Id>)
                 | Landed(kind: Kind, batch: nat, hi: Id)
                 | Sweeping(kind: Kind, complete: bool)
                 | Checked(kinds: set<Kind>)

  datatype State = State(sqlite: bool, db: Db, sql: Sql, collections: map<string, Collection>, outbox: seq<Intent>,
                         checkpoints: map<CheckpointKey, Id>, c: Contract, phase: Phase)

  datatype Action =
    | AppRuns(sql: Sql, collections: map<string, Collection>, outbox: seq<Intent>)
    | Reconfigure(c: Contract)
    | Begin(kind: Kind, batch: nat, resume: bool, probe: Probe)
    | Open
    | PutPage
    | PutPart(landed: set<Id>, crash: bool)
    | WriteCheckpoint
    | EndScan
    | Sweep
    | SweepPart(deleted: set<Id>)
    | Audit(kind: Kind)
    | Flip
    | Crash

  function RowsOf(s: State, kind: Kind): map<Id, Record> { SqlRows(s.sql, kind) }

  function PointsOf(s: State, kind: Kind): Collection { Points(s.collections, GenerationName(kind, s.c)) }

  function PageOf(s: State): seq<Id>
    requires s.phase.Scanning?
  {
    Page(RowsOf(s, s.phase.kind).Keys, s.phase.last, s.phase.batch)
  }

  /** PutPart is an upsert cut short, by a crash or by a rejection the backfill reports; SweepPart a GC cut short. */
  ghost predicate Enabled(s: State, a: Action) {
    match a
    case AppRuns(_, _, _) => s.phase.Idle?
    case Reconfigure(_) => s.phase.Idle?
    case Begin(_, batch, _, probe) => s.phase.Idle? && batch >= 1 && Expanded(s.sqlite, s.db, s.c, probe).Some?
    case Open => s.phase.Opening?
    case PutPage => s.phase.Scanning? && PageOf(s) != []
    case PutPart(_, _) => s.phase.Scanning? && PageOf(s) != []
    case WriteCheckpoint => s.phase.Landed?
    case EndScan => s.phase.Scanning? && PageOf(s) == []
    case Sweep => s.phase.Sweeping?
    case SweepPart(deleted) => s.phase.Sweeping? && deleted !! Eligible(RowsOf(s, s.phase.kind))
    case Audit(kind) => (s.phase.Idle? || s.phase.Checked?) && Green(kind, s.sql, s.db.rows, s.collections, s.c)
    case Flip => s.phase == Checked({Memory, Chunk})
    case Crash => true
  }

  function Store(s: State, kind: Kind, points: Collection): State {
    s.(collections := s.collections[GenerationName(kind, s.c) := points])
  }

  function Next(s: State, a: Action): State {
    match a
    case AppRuns(sql, collections, outbox) => s.(sql := sql, collections := collections, outbox := outbox)
    case Reconfigure(c) => s.(c := c)
    case Begin(kind, batch, resume, probe) =>
      var db := Expanded(s.sqlite, s.db, s.c, probe);
      if db.Some? then s.(db := db.value, phase := Opening(kind, batch, resume)) else s
    case Open =>
      if s.phase.Opening? then
        Store(s, s.phase.kind, PointsOf(s, s.phase.kind)).(phase := Scanning(s.phase.kind, s.phase.batch,
          Start(s.checkpoints, s.phase.kind, s.c, s.phase.resume)))
      else s
    case PutPage =>
      if s.phase.Scanning? && PageOf(s) != [] then
        var kind, page := s.phase.kind, PageOf(s);
        Store(s, kind, PointsOf(s, kind) + PagePoints(kind, page, RowsOf(s, kind), s.c))
          .(phase := Landed(kind, s.phase.batch, page[|page| - 1]))
      else s
    case PutPart(landed, crash) =>
      if s.phase.Scanning? && PageOf(s) != [] then
        var kind := s.phase.kind;
        Store(s, kind, PointsOf(s, kind) + PagePoints(kind, Kept(PageOf(s), landed), RowsOf(s, kind), s.c))
          .(phase := if crash then Idle else Sweeping(kind, false))
      else s
    case WriteCheckpoint =>
      if s.phase.Landed? then
        s.(checkpoints := s.checkpoints[CheckpointFor(s.phase.kind, s.c) := s.phase.hi],
           phase := Scanning(s.phase.kind, s.phase.batch, Some(s.phase.hi)))
      else s
    case EndScan => if s.phase.Scanning? then s.(phase := Sweeping(s.phase.kind, true)) else s
    case Sweep =>
      if s.phase.Sweeping? then
        Store(s, s.phase.kind, Collected(PointsOf(s, s.phase.kind), RowsOf(s, s.phase.kind))).(phase := Idle)
      else s
    case SweepPart(deleted) =>
      if s.phase.Sweeping? then Store(s, s.phase.kind, PointsOf(s, s.phase.kind) - deleted).(phase := Idle) else s
    case Audit(kind) =>
      s.(phase := Checked({kind} + if s.phase.Checked? then s.phase.kinds else {}))
    case Flip =>
      s.(db := s.db.(rows := Activated(s.db.rows, s.c, true)), outbox := BlockedOutbox(s.outbox, s.c), phase := Idle)
    case Crash => s.(phase := Idle)
  }

  function Run(s: State, acts: seq<Action>): State {
    if acts == [] then s else Next(Run(s, acts[..|acts| - 1]), acts[|acts| - 1])
  }

  ghost predicate Valid(s: State, acts: seq<Action>) {
    acts == [] || (Valid(s, acts[..|acts| - 1]) && Enabled(Run(s, acts[..|acts| - 1]), acts[|acts| - 1]))
  }

  /** Nothing is taken to go through: a crash is possible at any moment, an upsert may land any part of its page and be
      cut short by a crash or a rejection, a GC any part of its deletions; and between commands the app may do anything
      to rows, points and outbox, and the contract change. */
  lemma InterruptedAnywhere(s: State, landed: set<Id>, cut: bool, deleted: set<Id>, sql: Sql,
                            collections: map<string, Collection>, outbox: seq<Intent>, c: Contract)
    ensures Enabled(s, Crash) && Next(s, Crash) == s.(phase := Idle)
    ensures s.phase.Scanning? && PageOf(s) != [] ==> Enabled(s, PutPage) && Enabled(s, PutPart(landed, cut))
    ensures s.phase.Sweeping? ==>
              Enabled(s, Sweep) && Enabled(s, SweepPart(deleted - Eligible(RowsOf(s, s.phase.kind))))
    ensures s.phase.Idle? ==>
              && Enabled(s, AppRuns(sql, collections, outbox)) && Enabled(s, Reconfigure(c))
              && Next(s, AppRuns(sql, collections, outbox)) == s.(sql := sql, collections := collections, outbox := outbox)
  {
    hide SqlRows, Page, Eligible;
  }

  // ── a cutover that succeeds serves exactly the eligible rows ───────────────

  ghost predicate ChecksHold(s: State) {
    s.phase.Checked? ==> forall kind :: kind in s.phase.kinds ==> Green(kind, s.sql, s.db.rows, s.collections, s.c)
  }

  lemma ChecksHoldStep(s: State, a: Action)
    requires ChecksHold(s) && Enabled(s, a)
    ensures ChecksHold(Next(s, a))
  {
    hide Green, Expanded, Page, PagePoints, SqlRows, Activated, BlockedOutbox, Collected, GenerationName, Points, Kept, Start;
  }

  lemma {:induction false} ChecksHoldAlways(s: State, acts: seq<Action>)
    requires s.phase.Idle? && Valid(s, acts)
    ensures ChecksHold(Run(s, acts))
  {
    hide Next, Enabled;
    if acts != [] {
      ChecksHoldAlways(s, acts[..|acts| - 1]);
      ChecksHoldStep(Run(s, acts[..|acts| - 1]), acts[|acts| - 1]);
    }
  }

  /** What a user may rely on right after a cutover. */
  ghost predicate ServesExactly(s: State, kind: Kind) {
    && ActiveSet(s.db.rows, kind) == {GenerationName(kind, s.c)}
    && Target(kind, s.c) in s.db.rows
    && s.db.rows[Target(kind, s.c)].fingerprint == s.c.token
    && ReadsExact(kind, PointsOf(s, kind), RowsOf(s, kind), s.c)
    && forall i :: 0 <= i < |s.outbox| && s.outbox[i].kind == kind && s.outbox[i].status == Pending ==>
         s.outbox[i].generation == GenerationName(kind, s.c)
  }

  lemma FlipServesExactly(s: State, kind: Kind)
    requires Green(kind, s.sql, s.db.rows, s.collections, s.c)
    ensures ServesExactly(Next(s, Flip), kind)
  {
    hide ReadsExact, SqlRows, GenerationName, Activated;
    FlipLeavesOneActive(s.db.rows, s.c, kind);
    var after := Next(s, Flip);
    forall i | 0 <= i < |after.outbox| && after.outbox[i].kind == kind && after.outbox[i].status == Pending
      ensures after.outbox[i].generation == GenerationName(kind, s.c)
    {
      FlipRetiresExactlyTheStale(s.outbox, s.c, i);
    }
  }

  /** Over every run, whatever crashed before: when the flip happens, both kinds serve exactly the eligible rows as the
      audit reads them, and truly so exactly when every revision field is a whole number other than zero. */
  lemma CutoverIsSafe(s: State, acts: seq<Action>, kind: Kind)
    requires s.phase.Idle? && Valid(s, acts) && acts != [] && acts[|acts| - 1] == Flip
    ensures ServesExactly(Run(s, acts), kind)
    ensures Exact(kind, PointsOf(Run(s, acts), kind), RowsOf(Run(s, acts), kind), Run(s, acts).c)
            <==> WholeRevisions(PointsOf(Run(s, acts), kind))
  {
    hide ReadsExact, Exact, SqlRows, GenerationName, Activated, Points, BlockedOutbox, WholeRevisions;
    var before := Run(s, acts[..|acts| - 1]);
    ChecksHoldAlways(s, acts[..|acts| - 1]);
    assert kind in before.phase.kinds;
    FlipServesExactly(before, kind);
    var after := Run(s, acts);
    GreenIsTrueIff(kind, PointsOf(after, kind), RowsOf(after, kind), after.c);
  }

  // ── until the flip, the install serves what it served ──────────────────────

  /** A step of the migration itself: not the app, not a change of settings. */
  predicate IsCommand(a: Action) { !a.AppRuns? && !a.Reconfigure? }

  ghost predicate CommandsOnly(acts: seq<Action>) { forall i :: 0 <= i < |acts| ==> IsCommand(acts[i]) }

  predicate IsTarget(g: string, c: Contract) { g == GenerationName(Memory, c) || g == GenerationName(Chunk, c) }

  /** Nothing the read path depends on has moved: the rows, the pointers, and every collection but the two targets. */
  ghost predicate ServesAsBefore(s: State, t: State) {
    && t.sql == s.sql && t.c == s.c && t.outbox == s.outbox && t.sqlite == s.sqlite && t.db.tables >= s.db.tables
    && (forall kind :: ActiveSet(t.db.rows, kind) == ActiveSet(s.db.rows, kind))
    && (forall g :: !IsTarget(g, s.c) ==> Points(t.collections, g) == Points(s.collections, g))
  }

  lemma ExpandServesAsBefore(sqlite: bool, db: Db, c: Contract, probe: Probe, kind: Kind)
    requires Expanded(sqlite, db, c, probe).Some? && (sqlite ==> db.tables != {})
    ensures ActiveSet(Expanded(sqlite, db, c, probe).value.rows, kind) == ActiveSet(db.rows, kind)
    ensures Expanded(sqlite, db, c, probe).value.tables >= db.tables
  {
    hide Activated;
    ExpandMovesNoPointer(db.rows, c, kind);
    if sqlite { LadderMovesNoPointer(db, c, kind); }
  }

  lemma StoreTouchesOnlyTarget(s: State, kind: Kind, points: Collection, g: string)
    requires !IsTarget(g, s.c)
    ensures Points(Store(s, kind, points).collections, g) == Points(s.collections, g)
  {
    match kind case Memory => case Chunk =>
  }

  lemma StepServesAsBefore(s: State, a: Action)
    requires Enabled(s, a) && IsCommand(a) && !a.Flip? && (s.sqlite ==> s.db.tables != {})
    ensures ServesAsBefore(s, Next(s, a))
  {
    hide Expanded, Page, PagePoints, SqlRows, ActiveSet, Collected, GenerationName, Points, Kept, Start, IsTarget, Green;
    if a.Begin? {
      forall kind ensures ActiveSet(Next(s, a).db.rows, kind) == ActiveSet(s.db.rows, kind) {
        ExpandServesAsBefore(s.sqlite, s.db, s.c, a.probe, kind);
      }
      ExpandServesAsBefore(s.sqlite, s.db, s.c, a.probe, Memory);
    }
    forall g | !IsTarget(g, s.c) ensures Points(Next(s, a).collections, g) == Points(s.collections, g) {
      CollectionStep(s, a, g);
    }
  }

  lemma CollectionStep(s: State, a: Action, g: string)
    requires Enabled(s, a) && IsCommand(a) && !IsTarget(g, s.c)
    ensures Points(Next(s, a).collections, g) == Points(s.collections, g)
  {
    hide Expanded, Page, PagePoints, SqlRows, Activated, BlockedOutbox, Collected, GenerationName, Points, Kept, Start, IsTarget, Green;
    forall kind, points ensures Points(Store(s, kind, points).collections, g) == Points(s.collections, g) {
      StoreTouchesOnlyTarget(s, kind, points, g);
    }
    hide Store;
  }

  /** However often commands start, crash and restart: until a flip happens the pointers and every collection
      but the two being built are what they were, so the install keeps serving its old generation. */
  lemma {:induction false} OldServiceSurvives(s: State, acts: seq<Action>)
    requires Valid(s, acts) && (s.sqlite ==> s.db.tables != {})
    requires forall i :: 0 <= i < |acts| ==> IsCommand(acts[i]) && !acts[i].Flip?
    ensures ServesAsBefore(s, Run(s, acts))
  {
    hide Next, Enabled, ActiveSet, Points, IsTarget;
    if acts != [] {
      var shorter := acts[..|acts| - 1];
      OldServiceSurvives(s, shorter);
      assert IsCommand(acts[|acts| - 1]) && !acts[|acts| - 1].Flip?;
      StepServesAsBefore(Run(s, shorter), acts[|acts| - 1]);
    }
  }

  // ── what the commands write ────────────────────────────────────────────────

  /** Each point was there before, as it is, or is the fresh point of an eligible row. */
  ghost predicate OldOrFresh(before: Collection, after: Collection, kind: Kind, rows: map<Id, Record>, c: Contract) {
    forall id :: id in after && !(id in before && before[id] == after[id]) ==>
      id in Eligible(rows) && after[id] == FreshPoint(kind, id, rows[id], c)
  }

  lemma PageIsFresh(points: Collection, kind: Kind, rows: map<Id, Record>, c: Contract, page: seq<Id>, deleted: set<Id>)
    ensures OldOrFresh(points, points + PagePoints(kind, page, rows, c), kind, rows, c)
    ensures OldOrFresh(points, Collected(points, rows), kind, rows, c)
    ensures OldOrFresh(points, points - deleted, kind, rows, c)
  {
    hide FreshPoint;
  }

  lemma PointsStep(s: State, a: Action, kind: Kind)
    requires Enabled(s, a) && IsCommand(a)
    ensures OldOrFresh(PointsOf(s, kind), PointsOf(Next(s, a), kind), kind, RowsOf(s, kind), s.c)
  {
    hide SqlRows, Activated, BlockedOutbox, Expanded, Green, GenerationName, Page, Start, Points, PagePoints, Collected,
         FreshPoint, Eligible, Kept;
    if s.phase.Opening? || s.phase.Scanning? || s.phase.Sweeping? {
      var k, points, rows := s.phase.kind, PointsOf(s, s.phase.kind), RowsOf(s, s.phase.kind);
      StoredApart(s, k, points);
      if a.PutPage? && s.phase.Scanning? {
        PageIsFresh(points, k, rows, s.c, PageOf(s), {});
        StoredApart(s, k, points + PagePoints(k, PageOf(s), rows, s.c));
      } else if a.PutPart? && s.phase.Scanning? {
        var page := Kept(PageOf(s), a.landed);
        PageIsFresh(points, k, rows, s.c, page, {});
        StoredApart(s, k, points + PagePoints(k, page, rows, s.c));
      } else if a.Sweep? {
        PageIsFresh(points, k, rows, s.c, [], {});
        StoredApart(s, k, Collected(points, rows));
      } else if a.SweepPart? {
        PageIsFresh(points, k, rows, s.c, [], a.deleted);
        StoredApart(s, k, points - a.deleted);
      }
    }
  }

  /** No command writes anything but the fresh points of eligible rows. */
  lemma {:induction false} CommandsWriteFresh(s: State, acts: seq<Action>, kind: Kind)
    requires Valid(s, acts) && forall i :: 0 <= i < |acts| ==> IsCommand(acts[i])
    ensures Run(s, acts).sql == s.sql && Run(s, acts).c == s.c
    ensures OldOrFresh(PointsOf(s, kind), PointsOf(Run(s, acts), kind), kind, RowsOf(s, kind), s.c)
  {
    hide Enabled, Points, GenerationName, FreshPoint, SqlRows, Eligible;
    if acts != [] {
      var before, last := Run(s, acts[..|acts| - 1]), acts[|acts| - 1];
      CommandsWriteFresh(s, acts[..|acts| - 1], kind);
      assert IsCommand(last);
      PointsStep(before, last, kind);
      SqlKept(before, last);
    }
  }

  lemma SqlKept(s: State, a: Action)
    requires IsCommand(a)
    ensures Next(s, a).sql == s.sql && Next(s, a).c == s.c
  {
    hide SqlRows, Points, Page, PagePoints, GenerationName, Expanded, Activated, BlockedOutbox, Kept, Collected, Start;
  }

  /** From targets whose revision fields are whole numbers (new ones, say) the served collections are the eligible
      rows. */
  lemma CutoverServesTruly(s: State, acts: seq<Action>, kind: Kind)
    requires s.phase.Idle? && Valid(s, acts) && acts != [] && acts[|acts| - 1] == Flip
    requires (forall i :: 0 <= i < |acts| ==> IsCommand(acts[i])) && WholeRevisions(PointsOf(s, kind))
    ensures Exact(kind, PointsOf(Run(s, acts), kind), RowsOf(Run(s, acts), kind), Run(s, acts).c)
  {
    hide Exact, Run, Valid, Points, SqlRows, GenerationName, TenantText, ContractOk;
    CutoverIsSafe(s, acts, kind);
    CommandsWriteFresh(s, acts, kind);
    var points := PointsOf(Run(s, acts), kind);
    forall id | id in points ensures points[id].revision.Number? && points[id].revision.n != 0 {
      assert Accepted(kind, id, points[id], RowsOf(s, kind)[id], s.c);
    }
  }

  // ── the pointer pair moves as one ──────────────────────────────────────────

  predicate PointersOld(s: State, t: State) { forall kind :: ActiveSet(t.db.rows, kind) == ActiveSet(s.db.rows, kind) }

  predicate PointersNew(s: State, t: State) { forall kind :: ActiveSet(t.db.rows, kind) == {GenerationName(kind, s.c)} }

  /** At every point of every run, crash or not, both kinds point to the old generations or both to the new. */
  lemma {:induction false} CutoverIsAllOrNothing(s: State, acts: seq<Action>)
    requires Valid(s, acts) && (s.sqlite ==> s.db.tables != {})
    requires forall i :: 0 <= i < |acts| ==> IsCommand(acts[i])
    ensures PointersOld(s, Run(s, acts)) || PointersNew(s, Run(s, acts))
    ensures Run(s, acts).c == s.c && Run(s, acts).sqlite == s.sqlite && Run(s, acts).db.tables >= s.db.tables
    ensures (forall i :: 0 <= i < |acts| ==> acts[i] != Flip) ==> PointersOld(s, Run(s, acts))
  {
    hide Enabled, ActiveSet, Points, GenerationName, Activated;
    if acts != [] {
      var shorter := acts[..|acts| - 1];
      var a := acts[|acts| - 1];
      CutoverIsAllOrNothing(s, shorter);
      var before := Run(s, shorter);
      assert IsCommand(a);
      if a.Flip? {
        forall kind ensures ActiveSet(Run(s, acts).db.rows, kind) == {GenerationName(kind, s.c)} {
          FlipLeavesOneActive(before.db.rows, before.c, kind);
        }
        assert acts[|acts| - 1] == Flip;
      } else {
        hide Next;
        StepServesAsBefore(before, a);
      }
    }
  }

  // ── crashed and resumed backfills build what an uninterrupted one builds ───

  ghost predicate FreshUpTo(points: Collection, kind: Kind, rows: map<Id, Record>, c: Contract, hi: Option<Id>) {
    forall id :: id in Eligible(rows) && !Beyond(id, hi) ==> id in points && points[id] == FreshPoint(kind, id, rows[id], c)
  }

  ghost predicate FreshAll(points: Collection, kind: Kind, rows: map<Id, Record>, c: Contract) {
    forall id :: id in Eligible(rows) ==> id in points && points[id] == FreshPoint(kind, id, rows[id], c)
  }

  /** A checkpoint is honest when every eligible row up to it has its fresh point. */
  ghost predicate CheckpointHonest(s: State, kind: Kind) {
    CheckpointFor(kind, s.c) in s.checkpoints ==>
      FreshUpTo(PointsOf(s, kind), kind, RowsOf(s, kind), s.c, Some(s.checkpoints[CheckpointFor(kind, s.c)]))
  }

  predicate AtWork(s: State, kind: Kind) {
    !s.phase.Idle? && !s.phase.Checked? && s.phase.kind == kind
  }

  /** A backfill under way has left fresh points behind it. */
  ghost predicate PhaseHonest(s: State) {
    match s.phase
    case Idle => true
    case Checked(_) => true
    case Opening(_, batch, _) => batch >= 1
    case Scanning(kind, batch, last) => batch >= 1 && FreshUpTo(PointsOf(s, kind), kind, RowsOf(s, kind), s.c, last)
    case Landed(kind, batch, hi) => batch >= 1 && FreshUpTo(PointsOf(s, kind), kind, RowsOf(s, kind), s.c, Some(hi))
    case Sweeping(kind, complete) => complete ==> FreshAll(PointsOf(s, kind), kind, RowsOf(s, kind), s.c)
  }

  /** Nothing about the other kind: its checkpoint may be as old as it likes. */
  ghost predicate Honest(s: State, kind: Kind) {
    CheckpointHonest(s, kind) && (AtWork(s, kind) ==> PhaseHonest(s))
  }

  lemma PageFreshens(points: Collection, kind: Kind, rows: map<Id, Record>, c: Contract, last: Option<Id>, batch: nat)
    requires batch >= 1 && FreshUpTo(points, kind, rows, c, last)
    ensures var page := Page(rows.Keys, last, batch);
            && (page == [] ==> FreshAll(points, kind, rows, c))
            && (page != [] ==> FreshUpTo(points + PagePoints(kind, page, rows, c), kind, rows, c, Some(page[|page| - 1])))
  {
    hide Page, Sorted, FreshPoint;
    PageIsNextStretch(rows.Keys, last, batch);
    var page := Page(rows.Keys, last, batch);
    if page == [] {
      forall id | id in Eligible(rows) ensures !Beyond(id, last) {
        assert id !in Rest(rows.Keys, last);
      }
    }
  }

  /** Writing fresh points of a page never makes a fresh row stale, and neither does deleting ineligible ones. */
  lemma WritesKeepFresh(points: Collection, kind: Kind, rows: map<Id, Record>, c: Contract, page: seq<Id>,
                        deleted: set<Id>)
    ensures FreshAll(points, kind, rows, c) ==> FreshAll(points + PagePoints(kind, page, rows, c), kind, rows, c)
    ensures forall hi :: FreshUpTo(points, kind, rows, c, hi) ==>
              FreshUpTo(points + PagePoints(kind, page, rows, c), kind, rows, c, hi)
    ensures forall hi :: FreshUpTo(points, kind, rows, c, hi) ==> FreshUpTo(Collected(points, rows), kind, rows, c, hi)
    ensures deleted !! Eligible(rows) ==>
              forall hi :: FreshUpTo(points, kind, rows, c, hi) ==> FreshUpTo(points - deleted, kind, rows, c, hi)
  {
    hide FreshPoint, Beyond;
  }

  lemma StoredApart(s: State, kind: Kind, points: Collection)
    ensures PointsOf(Store(s, kind, points), kind) == points
    ensures forall other :: other != kind ==> PointsOf(Store(s, kind, points), other) == PointsOf(s, other)
  {
    GenerationNamesDiffer(s.c, s.c);
    hide GenerationName;
    forall other | other != kind ensures GenerationName(other, s.c) != GenerationName(kind, s.c) {
      match kind case Memory => case Chunk =>
    }
  }

  /** A write to one kind's collection that keeps its rows fresh keeps its checkpoint honest. */
  lemma StoreKeepsCheckpoint(s: State, kind: Kind, points: Collection)
    requires CheckpointHonest(s, kind)
    requires forall hi :: FreshUpTo(PointsOf(s, kind), kind, RowsOf(s, kind), s.c, hi) ==>
                          FreshUpTo(points, kind, RowsOf(s, kind), s.c, hi)
    ensures CheckpointHonest(Store(s, kind, points), kind)
  {
    StoredApart(s, kind, points);
    hide FreshUpTo, SqlRows, Points, GenerationName;
  }

  lemma StoreStepHonest(s: State, a: Action)
    requires Enabled(s, a) && (a.Open? || a.PutPage? || a.PutPart? || a.Sweep? || a.SweepPart?)
    requires Honest(s, s.phase.kind)
    ensures Honest(Next(s, a), s.phase.kind)
  {
    hide FreshUpTo, FreshAll, SqlRows, Points, GenerationName, Page, PagePoints, Collected, Kept, Beyond, Eligible;
    var kind := s.phase.kind;
    var points, rows := PointsOf(s, kind), RowsOf(s, kind);
    match a
    case Open =>
      StoreKeepsCheckpoint(s, kind, points);
      StoredApart(s, kind, points);
      NothingBelowNone(points, kind, rows, s.c);
    case PutPage =>
      WritesKeepFresh(points, kind, rows, s.c, PageOf(s), {});
      StoreKeepsCheckpoint(s, kind, points + PagePoints(kind, PageOf(s), rows, s.c));
      StoredApart(s, kind, points + PagePoints(kind, PageOf(s), rows, s.c));
      PageFreshens(points, kind, rows, s.c, s.phase.last, s.phase.batch);
    case PutPart(landed, crash) =>
      var part := Kept(PageOf(s), landed);
      WritesKeepFresh(points, kind, rows, s.c, part, {});
      StoreKeepsCheckpoint(s, kind, points + PagePoints(kind, part, rows, s.c));
    case Sweep =>
      WritesKeepFresh(points, kind, rows, s.c, [], {});
      StoreKeepsCheckpoint(s, kind, Collected(points, rows));
    case SweepPart(deleted) =>
      WritesKeepFresh(points, kind, rows, s.c, [], deleted);
      StoreKeepsCheckpoint(s, kind, points - deleted);
  }

  lemma NothingBelowNone(points: Collection, kind: Kind, rows: map<Id, Record>, c: Contract)
    ensures FreshUpTo(points, kind, rows, c, None)
  {
  }

  /** A checkpoint written over fresh points is honest, whatever was there before. */
  lemma CheckpointStepHonest(s: State)
    requires s.phase.Landed? && PhaseHonest(s)
    ensures Honest(Next(s, WriteCheckpoint), s.phase.kind)
  {
    hide FreshUpTo, FreshAll, SqlRows, Points, GenerationName, Eligible;
  }

  /** Work on one kind leaves the other's points and checkpoint. */
  lemma OtherKindStep(s: State, a: Action, kind: Kind)
    requires Enabled(s, a) && IsCommand(a) && !AtWork(s, kind) && Honest(s, kind)
    ensures Honest(Next(s, a), kind) && PointsOf(Next(s, a), kind) == PointsOf(s, kind)
  {
    hide FreshUpTo, FreshAll, SqlRows, Points, GenerationName, Page, Expanded, Activated, BlockedOutbox, Eligible, PagePoints,
      Collected, Kept, Green, Start;
    forall other, points | other != kind ensures PointsOf(Store(s, other, points), kind) == PointsOf(s, kind) {
      StoredApart(s, other, points);
    }
  }

  lemma HonestStep(s: State, a: Action, kind: Kind)
    requires Honest(s, kind) && Enabled(s, a) && IsCommand(a)
    ensures Honest(Next(s, a), kind) && Next(s, a).sql == s.sql && Next(s, a).c == s.c
  {
    hide FreshUpTo, FreshAll, SqlRows, Points, GenerationName, Page, Expanded, Activated, BlockedOutbox, Eligible, PagePoints,
      Collected, Kept, Green, Start;
    if !AtWork(s, kind) {
      OtherKindStep(s, a, kind);
    } else if a.WriteCheckpoint? {
      CheckpointStepHonest(s);
    } else if a.EndScan? {
      PageFreshens(PointsOf(s, s.phase.kind), s.phase.kind, RowsOf(s, s.phase.kind), s.c, s.phase.last, s.phase.batch);
    } else if a.Open? || a.PutPage? || a.PutPart? || a.Sweep? || a.SweepPart? {
      StoreStepHonest(s, a);
      hide Honest;
    }
  }

  /** An honest checkpoint of a kind stays honest through any commands on either kind, crashes, restarts and partial
      writes. */
  lemma {:induction false} HonestAlways(s: State, acts: seq<Action>, kind: Kind)
    requires Honest(s, kind) && Valid(s, acts) && CommandsOnly(acts)
    ensures Honest(Run(s, acts), kind) && Run(s, acts).sql == s.sql && Run(s, acts).c == s.c
  {
    hide Honest, Enabled, Next;
    if acts != [] {
      var shorter := acts[..|acts| - 1];
      HonestAlways(s, shorter, kind);
      assert IsCommand(acts[|acts| - 1]);
      HonestStep(Run(s, shorter), acts[|acts| - 1], kind);
    }
  }

  /** Whatever crashed and whatever was resumed with whatever batch sizes: with SQL unchanged since the kind's checkpoint
      was honest, the backfill that completes leaves exactly the collection of one uninterrupted full build. */
  lemma CompletedBackfillBuildsAll(s: State, acts: seq<Action>, kind: Kind)
    requires Honest(s, kind) && Valid(s, acts) && CommandsOnly(acts)
    requires acts != [] && acts[|acts| - 1] == Sweep && Run(s, acts[..|acts| - 1]).phase == Sweeping(kind, true)
    ensures PointsOf(Run(s, acts), kind) == Built(kind, SqlRows(s.sql, kind), s.c)
    ensures PointsOf(Run(s, acts), kind) == Swept(PointsOf(s, kind), kind, SqlRows(s.sql, kind), s.c, None)
  {
    hide Honest, Enabled, SqlRows, Points, GenerationName, FreshAll;
    var before := Run(s, acts[..|acts| - 1]);
    HonestAlways(s, acts[..|acts| - 1], kind);
    assert FreshAll(PointsOf(before, kind), kind, RowsOf(before, kind), s.c) by { SweepingIsFresh(before, kind); }
    FreshCollected(PointsOf(before, kind), kind, RowsOf(before, kind), s.c);
    StoredApart(before, kind, Collected(PointsOf(before, kind), RowsOf(before, kind)));
    FullSweepIsBuilt(PointsOf(s, kind), kind, SqlRows(s.sql, kind), s.c);
    hide Built, Swept, Collected, Store;
    assert Run(s, acts) == Next(before, Sweep);
    assert PointsOf(Run(s, acts), kind) == Collected(PointsOf(before, kind), RowsOf(before, kind)) by {
      NextSweepPoints(before, kind);
    }
  }

  /** A fresh start needs no honest checkpoint: the first one it writes is honest, and from there on the kind's backfill
      may crash and be resumed as above, however old the checkpoint was that it found. */
  lemma RestartBuildsAll(s: State, after: seq<Action>, kind: Kind)
    requires s.phase.Scanning? && s.phase.kind == kind && s.phase.batch >= 1 && s.phase.last == None
    requires Valid(s, [PutPage, WriteCheckpoint] + after) && CommandsOnly(after)
    requires after != [] && after[|after| - 1] == Sweep
    requires Run(s, [PutPage, WriteCheckpoint] + after[..|after| - 1]).phase == Sweeping(kind, true)
    ensures PointsOf(Run(s, [PutPage, WriteCheckpoint] + after), kind) == Built(kind, SqlRows(s.sql, kind), s.c)
  {
    hide Honest, Enabled, SqlRows, Points, GenerationName, Built, Next;
    var first, shorter := [PutPage, WriteCheckpoint], after[..|after| - 1];
    RunSplits(s, first, after);
    assert first + after == (first + shorter) + [Sweep];
    RunSplits(s, first + shorter, [Sweep]);
    RunSplits(s, first, shorter);
    FirstPageHeals(s);
    CompletedBackfillBuildsAll(Run(s, first), after, kind);
  }

  lemma FirstPageHeals(s: State)
    requires s.phase.Scanning? && s.phase.batch >= 1 && s.phase.last == None && Valid(s, [PutPage, WriteCheckpoint])
    ensures var t := Run(s, [PutPage, WriteCheckpoint]);
            Honest(t, s.phase.kind) && t.sql == s.sql && t.c == s.c
  {
    hide Honest, SqlRows, Points, GenerationName, FreshUpTo, FreshAll, Page, PagePoints, Eligible;
    var kind, page := s.phase.kind, PageOf(s);
    assert [PutPage, WriteCheckpoint][..1] == [PutPage] && [PutPage][..0] == [];
    var t := Next(s, PutPage);
    assert Enabled(s, PutPage);
    NothingBelowNone(PointsOf(s, kind), kind, RowsOf(s, kind), s.c);
    PageFreshens(PointsOf(s, kind), kind, RowsOf(s, kind), s.c, None, s.phase.batch);
    StoredApart(s, kind, PointsOf(s, kind) + PagePoints(kind, page, RowsOf(s, kind), s.c));
    assert PhaseHonest(t);
    CheckpointStepHonest(t);
  }

  lemma NextSweepPoints(s: State, kind: Kind)
    requires s.phase.Sweeping? && s.phase.kind == kind
    ensures PointsOf(Next(s, Sweep), kind) == Collected(PointsOf(s, kind), RowsOf(s, kind))
    ensures forall other :: other != kind ==> PointsOf(Next(s, Sweep), other) == PointsOf(s, other)
  {
    hide Collected, SqlRows, Points, GenerationName;
    StoredApart(s, kind, Collected(PointsOf(s, kind), RowsOf(s, kind)));
  }

  lemma SweepingIsFresh(s: State, kind: Kind)
    requires Honest(s, kind) && s.phase == Sweeping(kind, true)
    ensures FreshAll(PointsOf(s, kind), kind, RowsOf(s, kind), s.c)
  {
  }

  lemma FreshCollected(points: Collection, kind: Kind, rows: map<Id, Record>, c: Contract)
    requires FreshAll(points, kind, rows, c)
    ensures Collected(points, rows) == Built(kind, rows, c)
  {
  }

  // ── what a stale checkpoint costs ─────────────────────────────────────────

  const GOOD_PROBE := Probe(true, true, true, true, true)

  function OutdatedPoint(c: Contract): Payload { FreshPoint(Memory, 1, Record(1, None, Some("u")), c) }

  /** One memory, now at revision 2; its point and its checkpoint are from revision 1. */
  function OutdatedInstall(c: Contract): State {
    State(false, Db(0, {}, map[]), Sql(map[1 := MemoryRow("u", 2, false, false, false, "")], {}, map[], map[]),
          map[GenerationName(Memory, c) := map[1 := OutdatedPoint(c)]], [], map[CheckpointFor(Memory, c) := 1], c, Idle)
  }

  const RESTART_THEN_RESUME: seq<Action> :=
    [Begin(Memory, 1, false, GOOD_PROBE), Crash, Begin(Memory, 1, true, GOOD_PROBE), Open, EndScan, Sweep]

  lemma OutdatedScan(c: Contract) returns (states: seq<State>)
    ensures |states| == 6 && states[0] == OutdatedInstall(c)
    ensures forall i :: 0 <= i < 5 ==>
              Enabled(states[i], RESTART_THEN_RESUME[i]) && states[i + 1] == Next(states[i], RESTART_THEN_RESUME[i])
    ensures states[5].phase == Sweeping(Memory, true) && states[5].c == c && states[5].sql == OutdatedInstall(c).sql
    ensures PointsOf(states[5], Memory) == map[1 := OutdatedPoint(c)]
  {
    hide GenerationName, Activated, Sorted, OutdatedPoint;
    var s0 := OutdatedInstall(c);
    var s1 := Next(s0, RESTART_THEN_RESUME[0]);
    var s2 := Next(s1, Crash);
    var s3 := Next(s2, RESTART_THEN_RESUME[2]);
    StoredApart(s3, Memory, PointsOf(s3, Memory));
    var s4 := Next(s3, Open);
    assert s4.phase == Scanning(Memory, 1, Some(1));
    var rows := RowsOf(s4, Memory);
    assert Rest(rows.Keys, Some(1)) == {};
    PageIsNextStretch(rows.Keys, Some(1), 1);
    states := [s0, s1, s2, s3, s4, Next(s4, EndScan)];
  }

  /** A checkpoint outlives the build it belongs to. A row has changed since; a fresh start crashes before its first
      page, the old checkpoint is resumed, and the "complete" build keeps the stale point, which verify then refuses. */
  lemma StaleCheckpointSurvives(c: Contract)
    requires RealContract(c)
    ensures var s, acts := OutdatedInstall(c), RESTART_THEN_RESUME;
            && Valid(s, acts) && (forall i :: 0 <= i < |acts| ==> IsCommand(acts[i]))
            && Run(s, acts[..|acts| - 1]).phase == Sweeping(Memory, true)
            && PointsOf(Run(s, acts), Memory) != Built(Memory, SqlRows(s.sql, Memory), c)
            && !Green(Memory, s.sql, Run(s, acts).db.rows, Run(s, acts).collections, c)
  {
    hide GenerationName, Activated, Next, Enabled, PointsOf;
    var s, acts := OutdatedInstall(c), RESTART_THEN_RESUME;
    var states := OutdatedScan(c);
    var last := Next(states[5], Sweep);
    assert Enabled(states[5], Sweep) by { SweepEnabled(states[5]); }
    Unrolled(s, acts, states + [last]);
    NextSweepPoints(states[5], Memory);
    OutdatedStays(c, last, states[5]);
  }

  lemma SweepEnabled(s: State)
    requires s.phase.Sweeping?
    ensures Enabled(s, Sweep)
  {
  }

  lemma OutdatedStays(c: Contract, last: State, before: State)
    requires last == Next(before, Sweep) && before.phase == Sweeping(Memory, true) && before.c == c
    requires before.sql == OutdatedInstall(c).sql
    requires PointsOf(last, Memory) == Collected(map[1 := OutdatedPoint(c)], RowsOf(before, Memory))
    ensures PointsOf(last, Memory) != Built(Memory, SqlRows(before.sql, Memory), c)
    ensures !Green(Memory, before.sql, last.db.rows, last.collections, c)
  {
    hide GenerationName;
    var rows := SqlRows(before.sql, Memory);
    assert rows == map[1 := Record(2, None, Some("u"))];
    assert PointsOf(last, Memory)[1] == OutdatedPoint(c);
    assert Built(Memory, rows, c)[1].revision == Number(2);
    assert RevisionRead(OutdatedPoint(c).revision) == Some(1);
  }

  /** A run spelled out state by state. */
  lemma {:induction false} Unrolled(s: State, acts: seq<Action>, states: seq<State>)
    requires |states| == |acts| + 1 && states[0] == s
    requires forall i :: 0 <= i < |acts| ==> Enabled(states[i], acts[i]) && states[i + 1] == Next(states[i], acts[i])
    ensures Valid(s, acts) && Run(s, acts) == states[|acts|]
    ensures acts != [] ==> Run(s, acts[..|acts| - 1]) == states[|acts| - 1]
  {
    hide Enabled, Next;
    if acts != [] {
      Unrolled(s, acts[..|acts| - 1], states[..|acts|]);
    }
  }

  lemma {:induction false} RunJoins(s: State, a: seq<Action>, b: seq<Action>)
    requires Valid(s, a) && Valid(Run(s, a), b)
    ensures Valid(s, a + b) && Run(s, a + b) == Run(Run(s, a), b)
  {
    hide Enabled, Next;
    if b == [] {
      assert a + b == a;
    } else {
      assert (a + b)[..|a + b| - 1] == a + b[..|b| - 1];
      RunJoins(s, a, b[..|b| - 1]);
    }
  }

  lemma OneStep(s: State, a: Action)
    requires Enabled(s, a)
    ensures Valid(s, [a]) && Run(s, [a]) == Next(s, a)
  {
    hide Enabled, Next;
    assert [a][..0] == [];
    assert Valid(s, []) && Run(s, []) == s;
  }

  lemma {:induction false} RunSplits(s: State, a: seq<Action>, b: seq<Action>)
    requires Valid(s, a + b)
    ensures Valid(s, a) && Valid(Run(s, a), b) && Run(s, a + b) == Run(Run(s, a), b)
  {
    hide Enabled, Next;
    if b == [] {
      assert a + b == a;
    } else {
      assert (a + b)[..|a + b| - 1] == a + b[..|b| - 1];
      RunSplits(s, a, b[..|b| - 1]);
    }
  }
}
