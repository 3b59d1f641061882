/** Crash-consistent chunk indexing: rows and intents commit together, the vector write follows, an intent is
    acked only after its write, and a drain replays what a crash left pending. */
module Indexing {
  import opened Common
  import opened Outbox

  // One generation is active; the unique key of an intent is then (entity, revision, operation).
  datatype Key = Key(entity: Id, revision: int, operation: Operation)

  // A chunk row never changes after its insert: a re-ingest mints new ids, every row is at revision 1.
  datatype Row = Row(document: Id, revision: int, child: bool)
  datatype Point = Point(document: Id, revision: int)

  function PointOf(row: Row): Point { Point(row.document, row.revision) }

  /** The fast path of one ingest after its commit: purge the document's points, read the children's rows back, write
      their points, ack each. Several ingests of one document may be under way. */
  datatype Worker = Committed(document: Id, children: set<Id>) | Purged(document: Id, children: set<Id>)
                  | Writing(document: Id, found: set<Id>) | Acking(document: Id, landed: set<Id>)

  datatype Effect = Remove | Put(row: Row) | Skip

  /** A drain handles one intent at a time: it reads the row, acts on the store, then acks. Several drains may run, each
      under a number of its own; one between two intents is not in the state. */
  datatype Drain = Holding(key: Key, effect: Effect) | Applied(key: Key)

  datatype State = State(rows: map<Id, Row>, points: map<Id, Point>, outbox: map<Key, Status>, used: set<Id>,
                         workers: map<nat, Worker>, drains: map<nat, Drain>)

  datatype Action =
    | Commit(ingest: nat, document: Id, parents: set<Id>, children: set<Id>)
    | Purge(ingest: nat, removed: set<Id>)
    | ReadRows(ingest: nat)
    | PutChildren(ingest: nat, landed: set<Id>, acked: bool)
    | AckChild(ingest: nat, child: Id)
    | WorkerStops(ingest: nat)
    | DrainReads(drain: nat, key: Key)
    | DrainApplies(drain: nat)
    | DrainFails(drain: nat)
    | DrainBlocks(drain: nat)
    | DrainAcks(drain: nat)
    | Crash

  function RowsOf(s: State, document: Id): set<Id> { set id | id in s.rows && s.rows[id].document == document }

  function PointsOfDocument(s: State, d: Id): set<Id> { set id | id in s.points && s.points[id].document == d }

  /** INSERT ... ON CONFLICT DO NOTHING for a set of keys. */
  function Enqueued(outbox: map<Key, Status>, keys: set<Key>): map<Key, Status> {
    map k | k in outbox.Keys + keys :: if k in outbox then outbox[k] else Pending
  }

  function DeleteKeys(ids: set<Id>): set<Key> { set id | id in ids :: Key(id, 0, Delete) }

  function UpsertKeys(ids: set<Id>): set<Key> { set id | id in ids :: Key(id, 1, Upsert) }

  /** An intent that is not done: pending, or blocked by a contract mismatch and left for an operator. */
  predicate Owed(s: State, k: Key) { k in s.outbox && s.outbox[k] != Finished }

  /** What a drain decides from the row it reads. */
  function EffectOf(s: State, k: Key): Effect {
    if k.entity !in s.rows || k.operation == Delete then Remove
    else if k.revision < s.rows[k.entity].revision then Skip
    else Put(s.rows[k.entity])
  }

  // ── what schedules are considered ──────────────────────────────────────────

  /** When a document may be committed again: whenever, once no ingest of it is still to purge, or once none is still
      to write. The code itself asks for nothing. */
  datatype Commits = Anytime | AfterPurge | AfterWrite

  /** `apart` says that drains leave alone the children of an ingest that is still to purge, `alone` that no drain takes
      an intent of a chunk another one is at work on; one drain at a time is more than enough. */
  datatype Discipline = Discipline(apart: bool, commits: Commits, alone: bool)

  const STRICT := Discipline(true, AfterWrite, true)

  /** Drains mind the ingests but not each other. */
  const UNGUARDED := Discipline(true, AfterWrite, false)

  predicate MayCommit(s: State, document: Id, commits: Commits) {
    forall i :: i in s.workers && s.workers[i].document == document ==>
      match commits
      case Anytime => true
      case AfterPurge => !s.workers[i].Committed?
      case AfterWrite => s.workers[i].Acking?
  }

  predicate BeforePurge(s: State, id: Id) {
    exists i :: i in s.workers && s.workers[i].Committed? && id in s.workers[i].children
  }

  predicate Taken(s: State, id: Id) { exists n :: n in s.drains && s.drains[n].key.entity == id }

  /** A drain lists the pending intents first and takes them one by one: by then one may be done. */
  predicate Enabled(s: State, a: Action, how: Discipline) {
    match a
    case Commit(i, d, parents, children) =>
      i !in s.workers && parents !! children && (parents + children) !! s.used && MayCommit(s, d, how.commits)
    case Purge(i, removed) =>
      i in s.workers && s.workers[i].Committed? && removed <= PointsOfDocument(s, s.workers[i].document)
    case ReadRows(i) => i in s.workers && s.workers[i].Purged?
    case PutChildren(i, landed, acked) =>
      && i in s.workers && s.workers[i].Writing? && landed <= s.workers[i].found
      && (acked ==> landed == s.workers[i].found)
    case AckChild(i, child) => i in s.workers && s.workers[i].Acking? && child in s.workers[i].landed && child in s.rows
    case WorkerStops(i) => i in s.workers
    case DrainReads(n, k) =>
      && n !in s.drains && k in s.outbox
      && (how.apart ==> !BeforePurge(s, k.entity)) && (how.alone ==> !Taken(s, k.entity))
    case DrainApplies(n) => n in s.drains && s.drains[n].Holding?
    case DrainFails(n) => n in s.drains
    case DrainBlocks(n) => n in s.drains && s.drains[n].Holding? && s.drains[n].effect.Put?
    case DrainAcks(n) => n in s.drains && s.drains[n].Applied?
    case Crash => true
  }

  function Next(s: State, a: Action): State {
    match a
    case Commit(i, d, parents, children) =>
      var leaving := RowsOf(s, d);
      s.(rows := (s.rows - leaving) + (map id | id in parents + children :: Row(d, 1, id in children)),
         outbox := Enqueued(s.outbox, DeleteKeys(leaving) + UpsertKeys(children)),
         used := s.used + parents + children,
         workers := s.workers[i := Committed(d, children)])
    case Purge(i, removed) =>
      if i in s.workers && s.workers[i].Committed? then
        s.(points := s.points - removed,
           workers := s.workers[i := Purged(s.workers[i].document, s.workers[i].children)])
      else s
    case ReadRows(i) =>
      if i in s.workers && s.workers[i].Purged? then
        s.(workers := s.workers[i := Writing(s.workers[i].document, s.workers[i].children * s.rows.Keys)])
      else s
    case PutChildren(i, landed, acked) =>
      if i in s.workers && s.workers[i].Writing? then
        var d := s.workers[i].document;
        s.(points := s.points + (map id | id in landed :: Point(d, 1)),
           workers := if acked then s.workers[i := Acking(d, landed)] else s.workers - {i})
      else s
    case AckChild(i, child) =>
      var k := Key(child, 1, Upsert);
      s.(outbox := if k in s.outbox && s.outbox[k] == Pending then s.outbox[k := Finished] else s.outbox)
    case WorkerStops(i) => s.(workers := s.workers - {i})
    case DrainReads(n, k) => s.(drains := s.drains[n := Holding(k, EffectOf(s, k))])
    case DrainApplies(n) =>
      if n in s.drains && s.drains[n].Holding? then
        var k := s.drains[n].key;
        s.(points := match s.drains[n].effect
                     case Remove => s.points - {k.entity}
                     case Put(row) => s.points[k.entity := PointOf(row)]
                     case Skip => s.points,
           drains := s.drains[n := Applied(k)])
      else s
    case DrainFails(n) => s.(drains := s.drains - {n})
    case DrainBlocks(n) =>
      if n in s.drains then s.(outbox := s.outbox[s.drains[n].key := Blocked], drains := s.drains - {n}) else s
    case DrainAcks(n) =>
      if n in s.drains then s.(outbox := s.outbox[s.drains[n].key := Finished], drains := s.drains - {n}) else s
    case Crash => s.(workers := map[], drains := map[])
  }

  function Run(s: State, acts: seq<Action>): State {
    if acts == [] then s else Next(Run(s, acts[..|acts| - 1]), acts[|acts| - 1])
  }

  predicate Valid(s: State, acts: seq<Action>, how: Discipline) {
    acts == []
    || (Valid(s, acts[..|acts| - 1], how) && Enabled(Run(s, acts[..|acts| - 1]), acts[|acts| - 1], how))
  }

  /** Nothing is taken to go through: at any moment the whole process may crash, an ingest stop, and a drain fail, also
      between its write and its ack; a purge may take any of the document's points, and a write that is not acked land
      any of its children. What was stored stays. */
  lemma FailsAnywhere(s: State, how: Discipline, n: nat, i: nat, ids: set<Id>)
    ensures Enabled(s, Crash, how) && Next(s, Crash) == s.(workers := map[], drains := map[])
    ensures n in s.drains ==>
              Enabled(s, DrainFails(n), how) && Next(s, DrainFails(n)) == s.(drains := s.drains - {n})
    ensures i in s.workers ==>
              && Enabled(s, WorkerStops(i), how) && Next(s, WorkerStops(i)) == s.(workers := s.workers - {i})
              && (s.workers[i].Committed? ==> Enabled(s, Purge(i, ids * PointsOfDocument(s, s.workers[i].document)), how))
              && (s.workers[i].Writing? ==> Enabled(s, PutChildren(i, ids * s.workers[i].found, false), how))
  {
    hide RowsOf, EffectOf, Enqueued, PointsOfDocument, BeforePurge, Taken, MayCommit;
  }

  const EMPTY := State(map[], map[], map[], {}, map[], map[])

  // ── coverage ───────────────────────────────────────────────────────────────

  /** A child row without its current point owes an upsert. */
  ghost predicate RowsCovered(s: State) {
    forall id :: id in s.rows && s.rows[id].child && (id !in s.points || s.points[id] != PointOf(s.rows[id])) ==>
      Owed(s, Key(id, s.rows[id].revision, Upsert))
  }

  /** A point whose row is gone owes a delete. */
  ghost predicate PointsCovered(s: State) {
    forall id :: id in s.points && id !in s.rows ==> Owed(s, Key(id, 0, Delete))
  }

  /** Nothing the index still has to do is forgotten. */
  ghost predicate Covered(s: State) { RowsCovered(s) && PointsCovered(s) }

  ghost predicate IdsFresh(s: State) {
    && s.rows.Keys <= s.used && s.points.Keys <= s.used
    && (forall k :: k in s.outbox ==> k.entity in s.used)
    && (forall id :: id in s.rows ==> s.rows[id].revision == 1 && Key(id, 0, Delete) !in s.outbox)
    && (forall k :: k in s.outbox ==> k.revision == if k.operation == Delete then 0 else 1)
    && (forall id :: id in s.points && id in s.rows ==> s.rows[id].child && s.points[id] == PointOf(s.rows[id]))
    && (forall k :: k in s.outbox && k.operation == Upsert && k.entity in s.rows ==> s.rows[k.entity].child)
  }

  /** The ids are children of the document as far as they have rows. */
  ghost predicate ChildrenOf(s: State, d: Id, ids: set<Id>) {
    ids <= s.used && forall id :: id in ids && id in s.rows ==> s.rows[id] == Row(d, 1, true)
  }

  ghost predicate WorkerOk(s: State, w: Worker) {
    match w
    case Committed(d, children) =>
      && (forall id :: id in s.rows && s.rows[id].document == d && s.rows[id].child ==> id in children)
      && (forall id :: id in children ==>
            && id in s.rows && s.rows[id] == Row(d, 1, true) && id !in s.points && Owed(s, Key(id, 1, Upsert))
            && !Taken(s, id))
    case Purged(d, children) => ChildrenOf(s, d, children)
    case Writing(d, found) => ChildrenOf(s, d, found)
    case Acking(d, landed) => ChildrenOf(s, d, landed) && forall id :: id in landed && id in s.rows ==> id in s.points
  }

  ghost predicate WorkersOk(s: State) { forall i :: i in s.workers ==> WorkerOk(s, s.workers[i]) }

  function IdsOf(w: Worker): set<Id> {
    match w
    case Committed(_, children) => children
    case Purged(_, children) => children
    case Writing(_, found) => found
    case Acking(_, landed) => landed
  }

  /** No two ingests share a child. */
  ghost predicate Apart(s: State) {
    forall i, j :: i in s.workers && j in s.workers && i != j ==> IdsOf(s.workers[i]) !! IdsOf(s.workers[j])
  }

  ghost predicate DrainOk(s: State, d: Drain) {
    && d.key in s.outbox
    && match d
       case Holding(k, Remove) => k.entity !in s.rows
       case Holding(k, Put(row)) => k.operation == Upsert && row.child && (k.entity in s.rows ==> s.rows[k.entity] == row)
       case Holding(_, Skip) => false
       case Applied(k) =>
         && (k.operation == Delete ==> k.entity !in s.rows)
         && (k.operation == Upsert && k.entity in s.rows ==> k.entity in s.points)
  }

  ghost predicate DrainsOk(s: State) { forall n :: n in s.drains ==> DrainOk(s, s.drains[n]) }

  /** What keeps the rows covered. */
  ghost predicate RowsInv(s: State) { RowsCovered(s) && IdsFresh(s) && WorkersOk(s) && Apart(s) && DrainsOk(s) }

  /** What an ingest is still to write has rows. */
  ghost predicate WritesLive(s: State) {
    forall i :: i in s.workers ==>
      match s.workers[i]
      case Purged(_, children) => children <= s.rows.Keys
      case Writing(_, found) => found <= s.rows.Keys
      case _ => true
  }

  ghost predicate DrainSafe(s: State, d: Drain) {
    match d
    case Holding(k, effect) => effect.Put? && k.entity !in s.rows ==> Owed(s, Key(k.entity, 0, Delete))
    case Applied(k) => k.operation == Delete ==> k.entity !in s.points
  }

  ghost predicate DrainsSafe(s: State) { forall n :: n in s.drains ==> DrainSafe(s, s.drains[n]) }

  /** No two drains are at work on one chunk. */
  ghost predicate OneEach(s: State) {
    forall m, n :: m in s.drains && n in s.drains && m != n ==> s.drains[m].key.entity != s.drains[n].key.entity
  }

  /** What, beside it, keeps the points covered. */
  ghost predicate PointsInv(s: State) { PointsCovered(s) && WritesLive(s) && DrainsSafe(s) && OneEach(s) }

  ghost predicate Inv(s: State) { RowsInv(s) && PointsInv(s) }

  // ── a commit ───────────────────────────────────────────────────────────────

  lemma EnqueuedOwes(s: State, keys: set<Key>, k: Key)
    ensures Owed(s, k) ==> k in Enqueued(s.outbox, keys) && Enqueued(s.outbox, keys)[k] != Finished
    ensures k in keys && k !in s.outbox ==> k in Enqueued(s.outbox, keys) && Enqueued(s.outbox, keys)[k] == Pending
  {
  }

  lemma CommitKeepsRowsCovered(s: State, a: Action, how: Discipline)
    requires RowsInv(s) && a.Commit? && Enabled(s, a, how)
    ensures RowsCovered(Next(s, a))
  {
    var t := Next(s, a);
    var keys := DeleteKeys(RowsOf(s, a.document)) + UpsertKeys(a.children);
    hide Enqueued, WorkersOk, DrainsOk;
    forall id | id in t.rows && t.rows[id].child && (id !in t.points || t.points[id] != PointOf(t.rows[id]))
      ensures Owed(t, Key(id, t.rows[id].revision, Upsert))
    {
      var k := Key(id, t.rows[id].revision, Upsert);
      EnqueuedOwes(s, keys, k);
      if id in a.parents + a.children {
        assert k in UpsertKeys(a.children);
        assert k !in s.outbox;
      }
    }
  }

  lemma CommitKeepsPointsCovered(s: State, a: Action, how: Discipline)
    requires RowsInv(s) && PointsCovered(s) && a.Commit? && Enabled(s, a, how)
    ensures PointsCovered(Next(s, a))
  {
    var t := Next(s, a);
    var keys := DeleteKeys(RowsOf(s, a.document)) + UpsertKeys(a.children);
    hide Enqueued, WorkersOk, DrainsOk;
    forall id | id in t.points && id !in t.rows ensures Owed(t, Key(id, 0, Delete)) {
      var k := Key(id, 0, Delete);
      EnqueuedOwes(s, keys, k);
      if id in s.rows { assert k in DeleteKeys(RowsOf(s, a.document)); }
    }
  }

  lemma CommitKeepsIds(s: State, a: Action, how: Discipline)
    requires RowsInv(s) && a.Commit? && Enabled(s, a, how)
    ensures IdsFresh(Next(s, a))
  {
    var t := Next(s, a);
    hide RowsCovered, WorkersOk, DrainsOk, MayCommit;
    forall k | k in t.outbox
      ensures k.entity in t.used && k.revision == (if k.operation == Delete then 0 else 1)
      ensures k.operation == Upsert && k.entity in t.rows ==> t.rows[k.entity].child
      ensures k.operation == Delete ==> k.entity !in t.rows
    {
      assert k in s.outbox || k in DeleteKeys(RowsOf(s, a.document)) || k in UpsertKeys(a.children);
      if k in s.outbox && k.operation == Delete { assert k == Key(k.entity, 0, Delete); }
    }
  }

  /** What a commit of a document leaves alone. */
  ghost predicate CommitFrame(s: State, t: State, d: Id, born: set<Id>) {
    && t.points == s.points && t.drains == s.drains && s.used <= t.used && born !! s.used
    && (forall id :: id in s.rows && s.rows[id].document != d ==> id in t.rows && t.rows[id] == s.rows[id])
    && (forall id :: id in t.rows && id !in born ==> id in s.rows && t.rows[id] == s.rows[id] && t.rows[id].document != d)
    && (forall id :: id in born ==> id in t.rows && t.rows[id].document == d)
    && (forall k :: Owed(s, k) ==> Owed(t, k))
    && (forall k :: k in s.outbox ==> k in t.outbox)
  }

  lemma CommitElsewhere(s: State, a: Action, how: Discipline)
    requires IdsFresh(s) && a.Commit? && Enabled(s, a, how)
    ensures CommitFrame(s, Next(s, a), a.document, a.parents + a.children)
  {
    var t := Next(s, a);
    var keys := DeleteKeys(RowsOf(s, a.document)) + UpsertKeys(a.children);
    InEnqueued(s.outbox, keys);
    hide Enqueued, DeleteKeys, UpsertKeys, MayCommit;
    forall k ensures Owed(s, k) ==> Owed(t, k) { EnqueuedOwes(s, keys, k); }
  }

  lemma InEnqueued(outbox: map<Key, Status>, keys: set<Key>)
    ensures forall k :: k in outbox ==> k in Enqueued(outbox, keys)
    ensures forall k :: k in keys ==> k in Enqueued(outbox, keys)
  {
  }

  lemma CommitOwes(s: State, a: Action, how: Discipline, id: Id)
    requires IdsFresh(s) && a.Commit? && Enabled(s, a, how) && id in a.children
    ensures Owed(Next(s, a), Key(id, 1, Upsert))
  {
    var keys := DeleteKeys(RowsOf(s, a.document)) + UpsertKeys(a.children);
    assert Key(id, 1, Upsert) in UpsertKeys(a.children);
    hide Enqueued, MayCommit, DeleteKeys, UpsertKeys;
    EnqueuedOwes(s, keys, Key(id, 1, Upsert));
  }

  lemma CommitMakesWorker(s: State, a: Action, how: Discipline)
    requires RowsInv(s) && a.Commit? && Enabled(s, a, how)
    ensures WorkerOk(Next(s, a), Committed(a.document, a.children))
  {
    hide Enqueued, RowsCovered, WorkersOk, DeleteKeys, MayCommit, Owed, Apart;
    forall id | id in a.children ensures Owed(Next(s, a), Key(id, 1, Upsert)) { CommitOwes(s, a, how, id); }
  }

  /** An ingest under way, of this document or another, survives a commit that waits for the document's purges. */
  lemma CommitKeepsWorker(s: State, t: State, d: Id, born: set<Id>, w: Worker)
    requires CommitFrame(s, t, d, born) && WorkerOk(s, w) && (w.Committed? ==> w.document != d)
    ensures WorkerOk(t, w)
  {
    hide Owed;
  }

  lemma CommitKeepsWorkers(s: State, a: Action, how: Discipline)
    requires RowsInv(s) && a.Commit? && Enabled(s, a, how) && how.commits != Anytime
    ensures WorkersOk(Next(s, a))
  {
    var t := Next(s, a);
    CommitElsewhere(s, a, how);
    CommitMakesWorker(s, a, how);
    assert t.workers == s.workers[a.ingest := Committed(a.document, a.children)];
    hide WorkerOk, RowsCovered, IdsFresh, DrainsOk, Next, Apart, CommitFrame;
    forall i | i in t.workers ensures WorkerOk(t, t.workers[i]) {
      if i != a.ingest {
        assert WorkerOk(s, s.workers[i]);
        CommitKeepsWorker(s, t, a.document, a.parents + a.children, s.workers[i]);
      }
    }
  }

  /** What a step has to leave of the rows, the points and the outbox for a drain under way. */
  ghost predicate DrainFrame(s: State, t: State) {
    && s.outbox.Keys <= t.outbox.Keys
    && (forall id :: id in t.rows && id in s.used ==> id in s.rows && t.rows[id] == s.rows[id])
    && (forall id :: id in t.rows && id in s.points ==> id in t.points)
  }

  lemma DrainStaysOk(s: State, t: State, d: Drain)
    requires IdsFresh(s) && DrainOk(s, d) && DrainFrame(s, t)
    ensures DrainOk(t, d)
  {
    assert d.key.entity in s.used;
    hide IdsFresh;
  }

  lemma DrainsStayOk(s: State, t: State)
    requires IdsFresh(s) && DrainsOk(s) && DrainFrame(s, t)
    requires t.drains.Keys <= s.drains.Keys && forall n :: n in t.drains ==> t.drains[n] == s.drains[n]
    ensures DrainsOk(t)
  {
    hide IdsFresh, DrainOk, DrainFrame;
    forall n | n in t.drains ensures DrainOk(t, t.drains[n]) { DrainStaysOk(s, t, s.drains[n]); }
  }

  lemma CommitKeepsDrains(s: State, a: Action, how: Discipline)
    requires RowsInv(s) && a.Commit? && Enabled(s, a, how)
    ensures DrainsOk(Next(s, a))
  {
    CommitElsewhere(s, a, how);
    hide Next, Enabled, RowsCovered, WorkersOk, Apart, DrainOk;
    assert DrainFrame(s, Next(s, a));
    DrainsStayOk(s, Next(s, a));
  }

  lemma CommitKeepsDrainSafe(s: State, a: Action, how: Discipline, d: Drain)
    requires IdsFresh(s) && DrainSafe(s, d) && a.Commit? && Enabled(s, a, how) && d.key in s.outbox
    ensures DrainSafe(Next(s, a), d)
  {
    hide Enqueued, MayCommit;
    var keys := DeleteKeys(RowsOf(s, a.document)) + UpsertKeys(a.children);
    if d.Holding? {
      var gone := Key(d.key.entity, 0, Delete);
      EnqueuedOwes(s, keys, gone);
      if d.key.entity in RowsOf(s, a.document) {
        assert gone in DeleteKeys(RowsOf(s, a.document)) && gone !in s.outbox;
      }
    }
  }

  lemma CommitKeepsDrainsSafe(s: State, a: Action, how: Discipline)
    requires RowsInv(s) && DrainsSafe(s) && a.Commit? && Enabled(s, a, how)
    ensures DrainsSafe(Next(s, a))
  {
    hide RowsCovered, IdsFresh, WorkersOk, Apart, Enabled, DrainSafe, Enqueued;
    forall n | n in s.drains ensures DrainSafe(Next(s, a), s.drains[n]) {
      assert DrainOk(s, s.drains[n]);
      CommitKeepsDrainSafe(s, a, how, s.drains[n]);
    }
  }

  lemma CommitKeepsWritesLive(s: State, a: Action)
    requires Inv(s) && a.Commit? && Enabled(s, a, STRICT)
    ensures WritesLive(Next(s, a))
  {
    hide Enqueued, RowsCovered, PointsCovered, DrainsOk, IdsFresh, Apart, DrainsSafe, OneEach;
    WorkersFine(s);
    forall i | i in s.workers && (s.workers[i].Purged? || s.workers[i].Writing?)
      ensures s.workers[i].document != a.document
    {
    }
  }

  lemma CommitKeepsApart(s: State, a: Action, how: Discipline)
    requires RowsInv(s) && a.Commit? && Enabled(s, a, how)
    ensures Apart(Next(s, a))
  {
    hide RowsCovered, DrainsOk, MayCommit, Enqueued;
    forall i | i in s.workers ensures IdsOf(s.workers[i]) <= s.used { assert WorkerOk(s, s.workers[i]); }
  }

  lemma CommitKeeps(s: State, a: Action, how: Discipline)
    requires RowsInv(s) && a.Commit? && Enabled(s, a, how) && how.commits != Anytime
    ensures RowsInv(Next(s, a))
  {
    hide WorkersOk, RowsCovered, IdsFresh, DrainsOk, Next, Apart, Enabled;
    CommitKeepsRowsCovered(s, a, how);
    CommitKeepsIds(s, a, how);
    CommitKeepsDrains(s, a, how);
    CommitKeepsApart(s, a, how);
    CommitKeepsWorkers(s, a, how);
  }

  // ── a worker's steps ───────────────────────────────────────────────────────

  /** What an ingest purges belongs to no row: its document's live children have no points yet. */
  lemma PurgedAreGone(s: State, i: nat, removed: set<Id>)
    requires RowsInv(s) && Enabled(s, Purge(i, removed), UNGUARDED)
    ensures removed !! s.rows.Keys
  {
    assert WorkerOk(s, s.workers[i]);
    hide RowsCovered, DrainsOk;
  }

  lemma FewerPointsKeepWorker(s: State, t: State, w: Worker)
    requires WorkerOk(s, w) && t.rows == s.rows && t.outbox == s.outbox && t.drains == s.drains && t.used == s.used
    requires t.points.Keys <= s.points.Keys && forall id :: id in s.points && id in s.rows ==> id in t.points
    ensures WorkerOk(t, w)
  {
  }

  lemma PurgeKeepsRest(s: State, i: nat, removed: set<Id>)
    requires RowsInv(s) && Enabled(s, Purge(i, removed), UNGUARDED)
    ensures var t := Next(s, Purge(i, removed));
            RowsCovered(t) && IdsFresh(t) && DrainsOk(t) && (PointsCovered(s) ==> PointsCovered(t))
  {
    PurgedAreGone(s, i, removed);
    DrainsStayOk(s, Next(s, Purge(i, removed)));
    hide WorkersOk, PointsOfDocument, DrainsOk;
  }

  lemma PurgeKeeps(s: State, i: nat, removed: set<Id>)
    requires RowsInv(s) && Enabled(s, Purge(i, removed), UNGUARDED)
    ensures RowsInv(Next(s, Purge(i, removed)))
  {
    var t := Next(s, Purge(i, removed));
    PurgedAreGone(s, i, removed);
    PurgeKeepsRest(s, i, removed);
    assert WorkerOk(s, s.workers[i]);
    assert IdsFresh(s);
    forall j | j in t.workers ensures WorkerOk(t, t.workers[j]) {
      assert WorkerOk(s, s.workers[j]);
      FewerPointsKeepWorker(s, t, s.workers[j]);
    }
    hide RowsCovered, IdsFresh, DrainsOk, WorkerOk;
    assert Apart(t) by { assert Apart(s); }
  }

  lemma PutKeepsRest(s: State, i: nat, landed: set<Id>, acked: bool)
    requires RowsInv(s) && Enabled(s, PutChildren(i, landed, acked), UNGUARDED)
    ensures var t := Next(s, PutChildren(i, landed, acked));
            RowsCovered(t) && IdsFresh(t) && DrainsOk(t)
  {
    assert WorkerOk(s, s.workers[i]);
    DrainsStayOk(s, Next(s, PutChildren(i, landed, acked)));
    hide WorkersOk, DrainsOk;
  }

  lemma MorePointsKeepWorker(s: State, t: State, w: Worker, landed: set<Id>)
    requires WorkerOk(s, w) && t.rows == s.rows && t.outbox == s.outbox && t.drains == s.drains && t.used == s.used
    requires t.points.Keys == s.points.Keys + landed && (w.Committed? ==> w.children !! landed)
    ensures WorkerOk(t, w)
  {
  }

  lemma PutKeepsWorker(s: State, i: nat, landed: set<Id>, acked: bool, j: nat)
    requires RowsInv(s) && Enabled(s, PutChildren(i, landed, acked), UNGUARDED)
    requires j in Next(s, PutChildren(i, landed, acked)).workers
    ensures WorkerOk(Next(s, PutChildren(i, landed, acked)), Next(s, PutChildren(i, landed, acked)).workers[j])
  {
    WorkersFine(s);
    var t, w := Next(s, PutChildren(i, landed, acked)), s.workers[j];
    assert i != j ==> IdsOf(s.workers[i]) !! IdsOf(w);
    hide RowsInv;
    if i != j {
      hide WorkerOk;
      MorePointsKeepWorker(s, t, w, landed);
    }
  }

  lemma PutKeeps(s: State, i: nat, landed: set<Id>, acked: bool)
    requires RowsInv(s) && Enabled(s, PutChildren(i, landed, acked), UNGUARDED)
    ensures RowsInv(Next(s, PutChildren(i, landed, acked)))
  {
    var t := Next(s, PutChildren(i, landed, acked));
    PutKeepsRest(s, i, landed, acked);
    forall j | j in t.workers ensures WorkerOk(t, t.workers[j]) { PutKeepsWorker(s, i, landed, acked, j); }
    hide RowsCovered, IdsFresh, DrainsOk, WorkerOk;
    assert Apart(t);
  }

  lemma AckKeeps(s: State, i: nat, child: Id)
    requires RowsInv(s) && Enabled(s, AckChild(i, child), UNGUARDED)
    ensures RowsInv(Next(s, AckChild(i, child)))
  {
    var t := Next(s, AckChild(i, child));
    assert WorkerOk(s, s.workers[i]);
    forall j | j in t.workers ensures WorkerOk(t, t.workers[j]) {
      assert WorkerOk(s, s.workers[j]);
      assert i != j ==> IdsOf(s.workers[i]) !! IdsOf(s.workers[j]);
    }
  }

  /** Workers that only got fewer ids keep apart. */
  lemma FewerIdsApart(s: State, t: State)
    requires Apart(s) && t.workers.Keys <= s.workers.Keys
    requires forall i :: i in t.workers ==> IdsOf(t.workers[i]) <= IdsOf(s.workers[i])
    ensures Apart(t)
  {
    forall i, j | i in t.workers && j in t.workers && i != j ensures IdsOf(t.workers[i]) !! IdsOf(t.workers[j]) {
      assert IdsOf(s.workers[i]) !! IdsOf(s.workers[j]);
    }
  }

  lemma WorkerOkElsewhere(s: State, t: State, w: Worker)
    requires WorkerOk(s, w) && t == s.(workers := t.workers)
    ensures WorkerOk(t, w)
  {
  }

  /** Only workers changed: each is fine by itself and none got ids of its own. */
  lemma MovedWorkers(s: State, t: State)
    requires RowsInv(s) && t == s.(workers := t.workers) && t.workers.Keys <= s.workers.Keys
    requires forall i :: i in t.workers ==> IdsOf(t.workers[i]) <= IdsOf(s.workers[i]) && WorkerOk(s, t.workers[i])
    ensures RowsInv(t)
  {
    hide Apart, WorkerOk, IdsOf;
    FewerIdsApart(s, t);
    forall i | i in t.workers ensures WorkerOk(t, t.workers[i]) { WorkerOkElsewhere(s, t, t.workers[i]); }
  }

  lemma ReadKeeps(s: State, i: nat)
    requires RowsInv(s) && Enabled(s, ReadRows(i), UNGUARDED)
    ensures RowsInv(Next(s, ReadRows(i)))
  {
    hide Apart, RowsCovered, IdsFresh, DrainsOk, RowsInv;
    var w := s.workers[i];
    WorkersFine(s);
    ReadStep(s, i, w.document, w.children, UNGUARDED);
    assert WorkerOk(s, Writing(w.document, w.children * s.rows.Keys));
    hide Next, WorkerOk;
    MovedWorkers(s, Next(s, ReadRows(i)));
  }

  lemma WorkersFine(s: State)
    requires RowsInv(s)
    ensures forall i :: i in s.workers ==> WorkerOk(s, s.workers[i])
  {
  }

  lemma StopKeeps(s: State, a: Action)
    requires RowsInv(s) && Enabled(s, a, UNGUARDED) && a.WorkerStops?
    ensures RowsInv(Next(s, a))
  {
    hide WorkerOk, RowsInv;
    WorkersFine(s);
    MovedWorkers(s, Next(s, a));
  }

  lemma CrashKeeps(s: State)
    requires RowsInv(s)
    ensures RowsInv(Next(s, Crash))
  {
  }

  // ── the drain's steps ──────────────────────────────────────────────────────

  predicate IsDrainStep(a: Action) {
    a.DrainReads? || a.DrainApplies? || a.DrainFails? || a.DrainBlocks? || a.DrainAcks?
  }

  /** The drain that takes the step, by itself. */
  ghost predicate OwnDrainOk(s: State, a: Action)
    requires IsDrainStep(a)
  {
    a.drain in s.drains ==> DrainOk(s, s.drains[a.drain])
  }

  lemma DrainFrames(s: State, a: Action)
    requires IdsFresh(s) && IsDrainStep(a) && OwnDrainOk(s, a)
    ensures DrainFrame(s, Next(s, a))
  {
  }

  lemma DrainKeepsRest(s: State, a: Action)
    requires RowsCovered(s) && IdsFresh(s) && IsDrainStep(a) && OwnDrainOk(s, a) && Enabled(s, a, UNGUARDED)
    ensures RowsCovered(Next(s, a)) && IdsFresh(Next(s, a))
  {
  }

  lemma DrainKeepsOwn(s: State, a: Action)
    requires IdsFresh(s) && IsDrainStep(a) && OwnDrainOk(s, a) && Enabled(s, a, UNGUARDED) && a.drain in Next(s, a).drains
    ensures DrainOk(Next(s, a), Next(s, a).drains[a.drain])
  {
  }

  lemma DrainKeepsDrains(s: State, a: Action)
    requires IdsFresh(s) && DrainsOk(s) && IsDrainStep(a) && Enabled(s, a, UNGUARDED)
    ensures DrainsOk(Next(s, a))
  {
    var t := Next(s, a);
    DrainFrames(s, a);
    assert forall n :: n in t.drains && n != a.drain ==> n in s.drains && t.drains[n] == s.drains[n];
    hide Next, IdsFresh, DrainOk, Enabled, DrainFrame;
    forall n | n in t.drains ensures DrainOk(t, t.drains[n]) {
      if n == a.drain { DrainKeepsOwn(s, a); } else { DrainStaysOk(s, t, s.drains[n]); }
    }
  }

  lemma DrainKeepsWorker(s: State, a: Action, w: Worker)
    requires IdsFresh(s) && Enabled(s, a, UNGUARDED) && IsDrainStep(a) && OwnDrainOk(s, a)
    requires WorkerOk(s, w) && w in s.workers.Values
    ensures WorkerOk(Next(s, a), w)
  {
    DrainFrames(s, a);
    if w.Committed? {
      var i :| i in s.workers && s.workers[i] == w;
      forall id | id in w.children ensures a.drain in s.drains ==> s.drains[a.drain].key.entity != id {
        assert !Taken(s, id);
      }
      forall id | id in w.children ensures !Taken(Next(s, a), id) {
        DrainTakesApart(s, a, i, id);
      }
    }
  }

  lemma DrainTakesApart(s: State, a: Action, i: nat, id: Id)
    requires Enabled(s, a, UNGUARDED) && IsDrainStep(a) && !Taken(s, id)
    requires i in s.workers && s.workers[i].Committed? && id in s.workers[i].children
    ensures !Taken(Next(s, a), id)
  {
    if a.DrainReads? { assert a.key.entity != id; }
    forall n | n in Next(s, a).drains ensures Next(s, a).drains[n].key.entity != id {
      if n in s.drains { assert s.drains[n].key.entity != id; }
    }
  }

  /** Applying an upsert is safe because its document is past its purge. */
  lemma DrainStepKeeps(s: State, a: Action)
    requires RowsInv(s) && Enabled(s, a, UNGUARDED) && IsDrainStep(a)
    ensures RowsInv(Next(s, a))
  {
    var t := Next(s, a);
    assert t.workers == s.workers;
    hide Next, Enabled, RowsCovered, IdsFresh, DrainOk, WorkerOk;
    DrainKeepsRest(s, a);
    DrainKeepsDrains(s, a);
    forall i | i in t.workers ensures WorkerOk(t, t.workers[i]) {
      assert WorkerOk(s, s.workers[i]);
      DrainKeepsWorker(s, a, s.workers[i]);
    }
    assert Apart(t) by { assert Apart(s); }
  }

  // ── every step ─────────────────────────────────────────────────────────────

  lemma SameElsewhere(s: State, a: Action, how: Discipline)
    requires Enabled(s, a, how) && how.apart && !a.Commit?
    ensures Enabled(s, a, UNGUARDED)
  {
  }

  lemma StepKeepsRows(s: State, a: Action, how: Discipline)
    requires RowsInv(s) && Enabled(s, a, how) && how.apart && how.commits != Anytime
    ensures RowsInv(Next(s, a))
  {
    if !a.Commit? { SameElsewhere(s, a, how); }
    hide RowsInv, Next, Enabled;
    match a
    case Commit(_, _, _, _) => CommitKeeps(s, a, how);
    case Purge(i, removed) => PurgeKeeps(s, i, removed);
    case PutChildren(i, landed, acked) => PutKeeps(s, i, landed, acked);
    case AckChild(i, child) => AckKeeps(s, i, child);
    case ReadRows(i) => ReadKeeps(s, i);
    case WorkerStops(_) => StopKeeps(s, a);
    case Crash => CrashKeeps(s);
    case _ => DrainStepKeeps(s, a);
  }

  lemma WorkerKeepsPointsCovered(s: State, a: Action)
    requires Inv(s) && Enabled(s, a, STRICT) && !a.Commit? && !IsDrainStep(a)
    ensures PointsCovered(Next(s, a))
  {
    hide RowsCovered, WorkersOk, Apart, DrainsOk, DrainsSafe, OneEach;
    if a.Purge? { assert PointsOfDocument(s, s.workers[a.ingest].document) <= s.points.Keys; }
    if a.PutChildren? { assert s.workers[a.ingest].found <= s.rows.Keys; }
  }

  lemma WorkerKeepsWritesLive(s: State, a: Action)
    requires WritesLive(s) && WorkersOk(s) && !a.Commit? && !IsDrainStep(a)
    ensures WritesLive(Next(s, a))
  {
    if a.Purge? && a.ingest in s.workers { assert WorkerOk(s, s.workers[a.ingest]); }
    hide WorkersOk;
  }

  /** What a worker writes has a row, so a delete that a drain has applied stays applied. */
  lemma WorkerKeepsDrain(s: State, a: Action, d: Drain)
    requires WritesLive(s) && Enabled(s, a, STRICT) && !a.Commit? && !IsDrainStep(a)
    requires DrainSafe(s, d) && DrainOk(s, d)
    ensures DrainSafe(Next(s, a), d)
  {
    if a.PutChildren? { assert s.workers[a.ingest].found <= s.rows.Keys; }
  }

  lemma WorkerKeepsPoints(s: State, a: Action)
    requires Inv(s) && Enabled(s, a, STRICT) && !a.Commit? && !IsDrainStep(a)
    ensures PointsInv(Next(s, a))
  {
    var t := Next(s, a);
    assert forall n :: n in t.drains ==> n in s.drains && t.drains[n] == s.drains[n];
    assert t.drains.Keys <= s.drains.Keys;
    hide Next, Enabled, RowsCovered, IdsFresh, WorkersOk, Apart, DrainOk, DrainSafe, PointsCovered, WritesLive;
    WorkerKeepsPointsCovered(s, a);
    WorkerKeepsWritesLive(s, a);
    forall n | n in t.drains ensures DrainSafe(t, t.drains[n]) { WorkerKeepsDrain(s, a, s.drains[n]); }
  }

  lemma DrainKeepsPointsCovered(s: State, a: Action)
    requires PointsCovered(s) && IdsFresh(s) && Enabled(s, a, STRICT) && IsDrainStep(a) && OwnDrainOk(s, a)
    requires a.drain in s.drains ==> DrainSafe(s, s.drains[a.drain])
    ensures PointsCovered(Next(s, a))
    ensures a.drain in Next(s, a).drains ==> DrainSafe(Next(s, a), Next(s, a).drains[a.drain])
  {
  }

  /** A drain's step is about its own chunk only. */
  lemma DrainKeepsOther(s: State, a: Action, d: Drain)
    requires Enabled(s, a, STRICT) && IsDrainStep(a) && DrainSafe(s, d)
    requires a.drain in s.drains ==> s.drains[a.drain].key.entity != d.key.entity
    ensures DrainSafe(Next(s, a), d)
  {
  }

  lemma DrainKeepsOneEach(s: State, a: Action)
    requires OneEach(s) && Enabled(s, a, STRICT) && IsDrainStep(a)
    ensures OneEach(Next(s, a))
  {
    var t := Next(s, a);
    forall m, n | m in t.drains && n in t.drains && m != n ensures t.drains[m].key.entity != t.drains[n].key.entity {
      if a.DrainReads? {
        assert m in s.drains ==> s.drains[m].key.entity != a.key.entity;
        assert n in s.drains ==> s.drains[n].key.entity != a.key.entity;
      }
    }
  }

  lemma SameWrites(s: State, t: State)
    requires WritesLive(s) && t.rows == s.rows && t.workers == s.workers
    ensures WritesLive(t)
  {
  }

  lemma DrainKeepsPoints(s: State, a: Action)
    requires Inv(s) && Enabled(s, a, STRICT) && IsDrainStep(a)
    ensures PointsInv(Next(s, a))
  {
    var t := Next(s, a);
    assert t.rows == s.rows && t.workers == s.workers;
    assert forall n :: n in t.drains && n != a.drain ==> n in s.drains && t.drains[n] == s.drains[n];
    SameWrites(s, t);
    hide Next, Enabled, RowsCovered, IdsFresh, DrainOk, WorkersOk, Apart, DrainSafe, PointsCovered, WritesLive;
    DrainKeepsOneEach(s, a);
    DrainKeepsPointsCovered(s, a);
    forall n | n in t.drains ensures DrainSafe(t, t.drains[n]) {
      if n != a.drain {
        assert a.drain in s.drains ==> s.drains[a.drain].key.entity != s.drains[n].key.entity;
        DrainKeepsOther(s, a, s.drains[n]);
      }
    }
  }

  lemma StepKeepsInv(s: State, a: Action)
    requires Inv(s) && Enabled(s, a, STRICT)
    ensures Inv(Next(s, a))
  {
    StepKeepsRows(s, a, STRICT);
    hide RowsInv, Next, Enabled, PointsInv;
    if a.Commit? {
      assert PointsInv(Next(s, a)) by {
        CommitKeepsPoints(s, a);
      }
    } else if IsDrainStep(a) {
      DrainKeepsPoints(s, a);
    } else {
      WorkerKeepsPoints(s, a);
    }
  }

  lemma CommitKeepsPoints(s: State, a: Action)
    requires Inv(s) && a.Commit? && Enabled(s, a, STRICT)
    ensures PointsInv(Next(s, a))
  {
    assert Next(s, a).drains == s.drains;
    hide RowsInv, Next, Enabled, PointsCovered, WritesLive, DrainsSafe;
    CommitKeepsPointsCovered(s, a, STRICT);
    CommitKeepsDrainsSafe(s, a, STRICT);
    CommitKeepsWritesLive(s, a);
  }

  // ── every run ──────────────────────────────────────────────────────────────

  /** At every point of every run in which the drain keeps apart and a document is committed again only once no ingest
      of it is still to purge, whatever crashed and whatever was written only in part: each child row without its
      current point owes an upsert. */
  lemma {:induction false} RowsCoveredAlways(s: State, acts: seq<Action>, how: Discipline)
    requires RowsInv(s) && Valid(s, acts, how) && how.apart && how.commits != Anytime
    ensures RowsInv(Run(s, acts)) && RowsCovered(Run(s, acts))
  {
    if acts != [] {
      RowsCoveredAlways(s, acts[..|acts| - 1], how);
      StepKeepsRows(Run(s, acts[..|acts| - 1]), acts[|acts| - 1], how);
    }
  }

  /** If it is committed again only once no ingest of it is still to write, each point without a row owes a
      delete, too. */
  lemma {:induction false} CoveredAlways(s: State, acts: seq<Action>)
    requires Inv(s) && Valid(s, acts, STRICT)
    ensures Inv(Run(s, acts)) && Covered(Run(s, acts))
  {
    hide RowsCovered, PointsCovered, IdsFresh, WorkersOk, Apart, DrainsOk, WritesLive, DrainsSafe, Next, Enabled;
    if acts != [] {
      CoveredAlways(s, acts[..|acts| - 1]);
      StepKeepsInv(Run(s, acts[..|acts| - 1]), acts[|acts| - 1]);
    }
  }

  lemma EmptyIsFine()
    ensures Inv(EMPTY)
  {
  }

  /** A fresh install is covered at every point of every such run. */
  lemma CoveredFromEmpty(acts: seq<Action>)
    requires Valid(EMPTY, acts, STRICT)
    ensures Covered(Run(EMPTY, acts))
  {
    EmptyIsFine();
    hide Inv, Run, Valid, Covered;
    CoveredAlways(EMPTY, acts);
  }

  ghost predicate NothingBlocked(s: State) { forall k :: k in s.outbox ==> s.outbox[k] != Blocked }

  /** Unless the drain blocks an intent, every owed intent is pending, so a later drain takes it. */
  lemma {:induction false} OwedIsPending(s: State, acts: seq<Action>, how: Discipline)
    requires NothingBlocked(s) && Valid(s, acts, how) && (forall a :: a in acts ==> !a.DrainBlocks?)
    ensures NothingBlocked(Run(s, acts))
    ensures forall k :: Owed(Run(s, acts), k) ==> Run(s, acts).outbox[k] == Pending
  {
    hide Enabled, RowsOf;
    if acts != [] {
      OwedIsPending(s, acts[..|acts| - 1], how);
      assert acts[|acts| - 1] in acts;
      NothingBlockedStep(Run(s, acts[..|acts| - 1]), acts[|acts| - 1]);
    }
  }

  lemma NothingBlockedStep(s: State, a: Action)
    requires NothingBlocked(s) && !a.DrainBlocks?
    ensures NothingBlocked(Next(s, a))
  {
  }

  /** An upsert is acked only after its point landed: from then on the row, while it lives, has its point. */
  lemma AckedMeansLanded(s: State, acts: seq<Action>, how: Discipline, id: Id)
    requires RowsInv(s) && Valid(s, acts, how) && how.apart && how.commits != Anytime
    ensures var t := Run(s, acts);
            id in t.rows && t.rows[id].child && !Owed(t, Key(id, t.rows[id].revision, Upsert)) ==>
              id in t.points && t.points[id] == PointOf(t.rows[id])
  {
    RowsCoveredAlways(s, acts, how);
  }

  /** Everything the index has to hold: the live children, each under its current row. */
  function Ideal(s: State): map<Id, Point> {
    map id | id in s.rows && s.rows[id].child :: PointOf(s.rows[id])
  }

  /** With nothing owed the index is exactly the rows. */
  lemma NothingOwedIsExact(s: State)
    requires Inv(s) && forall k :: k in s.outbox ==> s.outbox[k] == Finished
    ensures s.points == Ideal(s)
  {
    hide WorkersOk, Apart, DrainsOk, WritesLive, DrainsSafe;
    forall id | id in s.points ensures id in s.rows { }
    forall id | id in s.rows && s.rows[id].child ensures id in s.points { }
  }

  // ── recovery ───────────────────────────────────────────────────────────────

  lemma {:induction false} RunJoins(s: State, a: seq<Action>, b: seq<Action>, how: Discipline)
    requires Valid(s, a, how) && Valid(Run(s, a), b, how)
    ensures Valid(s, a + b, how) && Run(s, a + b) == Run(Run(s, a), b)
  {
    hide Enabled, Next;
    if b == [] {
      assert a + b == a;
    } else {
      assert (a + b)[..|a + b| - 1] == a + b[..|b| - 1];
      RunJoins(s, a, b[..|b| - 1], how);
    }
  }

  /** A run spelled out state by state. */
  lemma {:induction false} Unrolled(s: State, acts: seq<Action>, states: seq<State>, how: Discipline)
    requires |states| == |acts| + 1 && states[0] == s
    requires forall i :: 0 <= i < |acts| ==>
               Enabled(states[i], acts[i], how) && states[i + 1] == Next(states[i], acts[i])
    ensures Valid(s, acts, how) && Run(s, acts) == states[|acts|]
  {
    hide Enabled, Next;
    if acts != [] {
      Unrolled(s, acts[..|acts| - 1], states[..|acts|], how);
    }
  }

  function PendingKeys(s: State): set<Key> { set k | k in s.outbox && s.outbox[k] == Pending }

  ghost predicate Quiet(s: State) { s.drains == map[] && s.workers == map[] && NothingBlocked(s) }

  /** One intent from its read to its ack, by drain n. */
  function Drained(n: nat, k: Key): seq<Action> { [DrainReads(n, k), DrainApplies(n), DrainAcks(n)] }

  /** The drain's pass over the intents, in a given order. */
  function DrainPass(order: seq<Key>): seq<Action> {
    if order == [] then [] else Drained(0, order[0]) + DrainPass(order[1..])
  }

  lemma DrainOne(s: State, k: Key)
    requires Quiet(s) && k in PendingKeys(s)
    ensures Valid(s, Drained(0, k), STRICT) && Quiet(Run(s, Drained(0, k)))
    ensures Run(s, Drained(0, k)).rows == s.rows && PendingKeys(Run(s, Drained(0, k))) == PendingKeys(s) - {k}
  {
    var one := Next(s, DrainReads(0, k));
    var two := Next(one, DrainApplies(0));
    var three := Next(two, DrainAcks(0));
    Unrolled(s, Drained(0, k), [s, one, two, three], STRICT);
    assert three.outbox == s.outbox[k := Finished];
  }

  /** From every reachable state with no worker and no drain left, a crash's included, one drain brings the index back
      to exactly the rows, whatever order it takes the pending intents in: the order they were enqueued in, or any
      other. */
  lemma {:induction false} DrainRecovers(s: State, order: seq<Key>)
    requires Inv(s) && Quiet(s)
    requires forall k :: k in order <==> k in PendingKeys(s)
    requires forall i, j :: 0 <= i < j < |order| ==> order[i] != order[j]
    ensures Valid(s, DrainPass(order), STRICT) && Run(s, DrainPass(order)).rows == s.rows
    ensures Run(s, DrainPass(order)).points == Ideal(s)
    decreases |order|
  {
    hide RowsInv, PointsInv, Next, Enabled, PendingKeys;
    if order == [] {
      AllFinished(s);
      NothingOwedIsExact(s);
    } else {
      var k, rest := order[0], order[1..];
      DrainOne(s, k);
      CoveredAlways(s, Drained(0, k));
      forall x ensures x in rest <==> x in PendingKeys(s) - {k} {
        assert x in order <==> x == k || x in rest;
        if x in rest { var i :| 0 <= i < |rest| && rest[i] == x; assert order[i + 1] != order[0]; }
      }
      DrainRecovers(Run(s, Drained(0, k)), rest);
      RunJoins(s, Drained(0, k), DrainPass(rest), STRICT);
    }
  }

  lemma AllFinished(s: State)
    requires Quiet(s) && forall k :: k !in PendingKeys(s)
    ensures forall k :: k in s.outbox ==> s.outbox[k] == Finished
  {
    forall k | k in s.outbox ensures s.outbox[k] == Finished { assert k !in PendingKeys(s); }
  }

  // ── why each discipline is needed ──────────────────────────────────────────

  lemma RowLost(s: State, id: Id)
    requires id in s.rows && s.rows[id].child && id !in s.points && !Owed(s, Key(id, s.rows[id].revision, Upsert))
    ensures !RowsCovered(s)
  {
  }

  lemma PointLost(s: State, id: Id)
    requires id in s.points && id !in s.rows && !Owed(s, Key(id, 0, Delete))
    ensures !PointsCovered(s)
  {
  }

  // The single steps, spelled out.

  lemma PurgeStep(s: State, i: nat, d: Id, children: set<Id>, how: Discipline)
    requires i in s.workers && s.workers[i] == Committed(d, children)
    ensures var purge := Purge(i, PointsOfDocument(s, d));
            Enabled(s, purge, how)
            && Next(s, purge) == s.(points := s.points - PointsOfDocument(s, d), workers := s.workers[i := Purged(d, children)])
  {
  }

  lemma PutStep(s: State, i: nat, d: Id, live: set<Id>, how: Discipline)
    requires i in s.workers && s.workers[i] == Writing(d, live)
    requires forall id :: id in live ==> id in s.rows && s.rows[id] == Row(d, 1, true)
    ensures var put := PutChildren(i, live, true);
            Enabled(s, put, how)
            && Next(s, put) == s.(points := s.points + (map id | id in live :: PointOf(s.rows[id])),
                                  workers := s.workers[i := Acking(d, live)])
  {
  }

  lemma ReadStep(s: State, i: nat, d: Id, children: set<Id>, how: Discipline)
    requires i in s.workers && s.workers[i] == Purged(d, children)
    ensures Enabled(s, ReadRows(i), how)
    ensures Next(s, ReadRows(i)) == s.(workers := s.workers[i := Writing(d, children * s.rows.Keys)])
  {
  }

  lemma StopStep(s: State, i: nat, how: Discipline)
    requires i in s.workers
    ensures Enabled(s, WorkerStops(i), how) && Next(s, WorkerStops(i)) == s.(workers := s.workers - {i})
  {
  }

  /** A commit of one new child. */
  lemma CommitStep(s: State, j: nat, d: Id, id: Id, how: Discipline)
    requires j !in s.workers && id !in s.used && MayCommit(s, d, how.commits)
    ensures var commit := Commit(j, d, {}, {id});
            var t := Next(s, commit);
            && Enabled(s, commit, how)
            && t.workers == s.workers[j := Committed(d, {id})] && t.points == s.points && t.drains == s.drains
            && id in t.rows && t.rows[id] == Row(d, 1, true)
            && (Key(id, 1, Upsert) !in s.outbox ==> Key(id, 1, Upsert) in t.outbox && t.outbox[Key(id, 1, Upsert)] == Pending)
            && (forall x :: x in RowsOf(s, d) && x != id ==> x !in t.rows)
            && (forall x :: x in RowsOf(s, d) && Key(x, 0, Delete) !in s.outbox ==>
                  Key(x, 0, Delete) in t.outbox && t.outbox[Key(x, 0, Delete)] == Pending)
  {
    var keys := DeleteKeys(RowsOf(s, d)) + UpsertKeys({id});
    assert Key(id, 1, Upsert) in UpsertKeys({id});
    forall x | x in RowsOf(s, d) && Key(x, 0, Delete) !in s.outbox
      ensures Key(x, 0, Delete) in Enqueued(s.outbox, keys) && Enqueued(s.outbox, keys)[Key(x, 0, Delete)] == Pending
    {
      assert Key(x, 0, Delete) in DeleteKeys(RowsOf(s, d));
    }
    hide DeleteKeys, UpsertKeys, RowsOf, MayCommit;
  }

  /** A drain takes the intent of a child whose ingest is still to purge. */
  function HastyDrain(n: nat, i: nat, id: Id): seq<Action> {
    Drained(n, Key(id, 1, Upsert)) + [Purge(i, {id})]
  }

  predicate AboutToPurge(s: State, i: nat, d: Id, id: Id) {
    && i in s.workers && s.workers[i].Committed? && s.workers[i].document == d
    && id in s.workers[i].children && id in s.rows && s.rows[id] == Row(d, 1, true)
    && Key(id, 1, Upsert) in s.outbox
  }

  const HASTY := Discipline(false, AfterWrite, true)

  /** Whenever an ingest has not purged yet, a drain that takes the intent of one of its children can lose it: it lands
      and acks the point, and the ingest's own purge removes it. */
  lemma KeepingApartIsNeeded(s: State, n: nat, i: nat, d: Id, id: Id)
    requires AboutToPurge(s, i, d, id) && n !in s.drains && !Taken(s, id)
    ensures Valid(s, HastyDrain(n, i, id), HASTY) && !RowsCovered(Run(s, HastyDrain(n, i, id)))
  {
    var k := Key(id, 1, Upsert);
    var s1 := Next(s, DrainReads(n, k));
    var s2 := Next(s1, DrainApplies(n));
    var s3 := Next(s2, DrainAcks(n));
    assert s3.points == s.points[id := Point(d, 1)] && s3.outbox == s.outbox[k := Finished] && s3.rows == s.rows;
    var s4 := Next(s3, Purge(i, {id}));
    assert Enabled(s2, DrainAcks(n), HASTY);
    assert Enabled(s3, Purge(i, {id}), HASTY);
    RowLost(s4, id);
    assert Enabled(s, DrainReads(n, k), HASTY) && Enabled(s1, DrainApplies(n), HASTY);
    hide Next, Enabled, RowsCovered;
    assert HastyDrain(n, i, id) == [DrainReads(n, k), DrainApplies(n), DrainAcks(n), Purge(i, {id})];
    Unrolled(s, HastyDrain(n, i, id), [s, s1, s2, s3, s4], HASTY);
  }

  /** A step of one ingest. */
  predicate OfIngest(a: Action, i: nat) {
    (a.Commit? || a.Purge? || a.ReadRows? || a.PutChildren? || a.AckChild? || a.WorkerStops?) && a.ingest == i
  }

  /** A second ingest of a document, from its commit to its last ack, leaves the others where they are. */
  lemma WholeIngest(s: State, j: nat, d: Id, id: Id) returns (acts: seq<Action>)
    requires j !in s.workers && id !in s.used && Key(id, 1, Upsert) !in s.outbox
    ensures Valid(s, acts, HEEDLESS) && forall a :: a in acts ==> OfIngest(a, j)
    ensures var t := Run(s, acts);
            && t.workers == s.workers && t.drains == s.drains
            && id in t.rows && t.rows[id] == Row(d, 1, true) && id in t.points && t.points[id] == Point(d, 1)
            && !Owed(t, Key(id, 1, Upsert))
  {
    hide Next, Enabled, RowsOf, PointsOfDocument, MayCommit, FastPath, OfIngest, Enqueued;
    var how, commit := HEEDLESS, Commit(j, d, {}, {id});
    assert MayCommit(s, d, Anytime) by { Unhindered(s, d); }
    CommitStep(s, j, d, id, how);
    var s1 := Next(s, commit);
    var rest := FastPathIsARun(s1, j, d, {id}, how);
    FastPathOfOne(s1, d, id);
    Unrolled(s, [commit], [s, s1], how);
    RunJoins(s, [commit], rest, how);
    acts := [commit] + rest;
    assert OfIngest(commit, j) by { Committing(j, d, id); }
    assert s1.workers - {j} == s.workers;
  }

  lemma Unhindered(s: State, d: Id)
    ensures MayCommit(s, d, Anytime)
  {
  }

  lemma Committing(j: nat, d: Id, id: Id)
    ensures OfIngest(Commit(j, d, {}, {id}), j)
  {
  }

  lemma FastPathOfOne(s: State, d: Id, id: Id)
    requires id in s.rows && s.rows[id] == Row(d, 1, true)
    requires Key(id, 1, Upsert) in s.outbox && s.outbox[Key(id, 1, Upsert)] == Pending
    ensures var t := FastPath(s, d, {id});
            && t.rows == s.rows && t.drains == s.drains && id in t.points && t.points[id] == Point(d, 1)
            && !Owed(t, Key(id, 1, Upsert))
  {
    assert {id} * s.rows.Keys == {id};
  }

  const HEEDLESS := Discipline(true, Anytime, true)

  /** Whenever an ingest is still to purge, a whole second ingest of its document, with neither a crash nor a drain, is
      undone by that purge: the new row has no point and owes nothing. */
  lemma WaitingForPurgesIsNeeded(s: State, i: nat, j: nat, d: Id, id: Id) returns (acts: seq<Action>)
    requires i in s.workers && s.workers[i].Committed? && s.workers[i].document == d
    requires j !in s.workers && id !in s.used && Key(id, 1, Upsert) !in s.outbox
    ensures Valid(s, acts, HEEDLESS) && !RowsCovered(Run(s, acts))
    ensures forall a :: a in acts ==> OfIngest(a, i) || OfIngest(a, j)
  {
    var how, purge := HEEDLESS, Purge(i, {id});
    var first := WholeIngest(s, j, d, id);
    var t := Run(s, first);
    var u := Next(t, purge);
    assert Enabled(t, purge, how);
    RowLost(u, id);
    hide Next, Enabled, RowsCovered;
    Unrolled(t, [purge], [t, u], how);
    RunJoins(s, first, [purge], how);
    acts := first + [purge];
  }

  lemma SamePoints(s: State, t: State, d: Id)
    requires s.points == t.points
    ensures PointsOfDocument(s, d) == PointsOfDocument(t, d)
  {
  }

  const AFTER_PURGE := Discipline(true, AfterPurge, true)

  /** A re-commit that waits for purges only, a drain clearing the replaced row, and then the first ingest's write. */
  function LateWrite(s: State, i: nat, j: nat, n: nat, d: Id, id: Id, other: Id): seq<Action> {
    [Commit(j, d, {}, {other}), Purge(j, PointsOfDocument(s, d))] + Drained(n, Key(id, 0, Delete))
    + [PutChildren(i, {id}, false)]
  }

  /** The row of id is gone, its delete is in the outbox, and ingest i is still to write its point. */
  ghost predicate LeftBehind(s: State, i: nat, id: Id) {
    && id !in s.rows && !BeforePurge(s, id) && Key(id, 0, Delete) in s.outbox
    && i in s.workers && s.workers[i].Writing? && id in s.workers[i].found
  }

  lemma Recommitted(s: State, i: nat, j: nat, d: Id, id: Id, other: Id)
    requires RowsInv(s) && MayCommit(s, d, AfterPurge)
    requires i in s.workers && s.workers[i].Writing? && s.workers[i].document == d
    requires id in s.workers[i].found && id in s.rows && j !in s.workers && other !in s.used
    ensures var commit, purge := Commit(j, d, {}, {other}), Purge(j, PointsOfDocument(s, d));
            var s1 := Next(s, commit);
            && Enabled(s, commit, AFTER_PURGE) && Enabled(s1, purge, AFTER_PURGE)
            && LeftBehind(Next(s1, purge), i, id) && Next(s1, purge).drains == s.drains
  {
    hide Next, Enabled, RowsInv, MayCommit, Enqueued, WorkerOk, PointsOfDocument, BeforePurge, IdsFresh, RowsOf;
    var s1 := Next(s, Commit(j, d, {}, {other}));
    LiveChild(s, i, d, id);
    CommitStep(s, j, d, other, AFTER_PURGE);
    SamePoints(s, s1, d);
    PurgeStep(s1, j, d, {other}, AFTER_PURGE);
    var s2 := Next(s1, Purge(j, PointsOfDocument(s, d)));
    assert s2.workers == s.workers[j := Purged(d, {other})];
    NoneBefore(s, s2, i, j, id, Purged(d, {other}));
  }

  lemma LiveChild(s: State, i: nat, d: Id, id: Id)
    requires RowsInv(s) && i in s.workers && s.workers[i].Writing? && s.workers[i].document == d
    requires id in s.workers[i].found && id in s.rows
    ensures id in RowsOf(s, d) && id in s.used && Key(id, 0, Delete) !in s.outbox
  {
    hide RowsCovered, Apart, DrainsOk;
    assert WorkerOk(s, s.workers[i]);
  }

  /** No ingest that is still to purge has a child of another ingest. */
  lemma NoneBefore(s: State, t: State, i: nat, j: nat, id: Id, w: Worker)
    requires RowsInv(s) && i in s.workers && s.workers[i].Writing? && id in s.workers[i].found
    requires j !in s.workers && t.workers == s.workers[j := w] && !w.Committed?
    ensures !BeforePurge(t, id)
  {
    hide RowsCovered, IdsFresh, WorkersOk, DrainsOk;
    forall x | x in t.workers && t.workers[x].Committed? ensures id !in t.workers[x].children {
      assert x in s.workers && IdsOf(s.workers[x]) !! IdsOf(s.workers[i]);
    }
  }

  lemma LateWriteFrom(s: State, i: nat, n: nat, id: Id, how: Discipline)
    requires LeftBehind(s, i, id) && n !in s.drains && !Taken(s, id)
    ensures var acts := Drained(n, Key(id, 0, Delete)) + [PutChildren(i, {id}, false)];
            Valid(s, acts, how) && !PointsCovered(Run(s, acts))
  {
    hide Next, Enabled, Drained, PointsCovered, BeforePurge, Taken;
    var k, put := Key(id, 0, Delete), PutChildren(i, {id}, false);
    DrainDeletes(s, n, k, how);
    var t := Run(s, Drained(n, k));
    LatePut(t, i, id, how);
    Unrolled(t, [put], [t, Next(t, put)], how);
    RunJoins(s, Drained(n, k), [put], how);
  }

  /** Whenever an ingest has read its rows and is still to write, a second commit and a drain can leave it writing the
      point of a row that is gone, with nothing owed. */
  lemma WaitingForWritesIsNeeded(s: State, i: nat, j: nat, n: nat, d: Id, id: Id, other: Id)
    requires RowsInv(s) && n !in s.drains && !Taken(s, id) && MayCommit(s, d, AfterPurge)
    requires i in s.workers && s.workers[i].Writing? && s.workers[i].document == d
    requires id in s.workers[i].found && id in s.rows && j !in s.workers && other !in s.used
    ensures var acts := LateWrite(s, i, j, n, d, id, other);
            Valid(s, acts, AFTER_PURGE) && !PointsCovered(Run(s, acts))
  {
    hide RowsInv, PointsCovered, RowsOf, MayCommit, Next, Enabled, Drained, LeftBehind, PointsOfDocument;
    var first, last := [Commit(j, d, {}, {other}), Purge(j, PointsOfDocument(s, d))],
                       Drained(n, Key(id, 0, Delete)) + [PutChildren(i, {id}, false)];
    Recommitted(s, i, j, d, id, other);
    var s1 := Next(s, first[0]);
    var s2 := Next(s1, first[1]);
    Unrolled(s, first, [s, s1, s2], AFTER_PURGE);
    LateWriteFrom(s2, i, n, id, AFTER_PURGE);
    RunJoins(s, first, last, AFTER_PURGE);
    assert first + last == LateWrite(s, i, j, n, d, id, other);
  }

  /** A drain takes the delete of a row that is gone. */
  lemma DrainDeletes(s: State, n: nat, k: Key, how: Discipline)
    requires n !in s.drains && k in s.outbox && k.operation == Delete && k.entity !in s.rows
    requires !BeforePurge(s, k.entity) && (how.alone ==> !Taken(s, k.entity))
    ensures Valid(s, Drained(n, k), how)
    ensures Run(s, Drained(n, k)) == s.(points := s.points - {k.entity}, outbox := s.outbox[k := Finished])
  {
    var one := Next(s, DrainReads(n, k));
    var two := Next(one, DrainApplies(n));
    var three := Next(two, DrainAcks(n));
    assert Enabled(s, DrainReads(n, k), how) && Enabled(one, DrainApplies(n), how) && Enabled(two, DrainAcks(n), how);
    assert three.drains == s.drains;
    assert three == s.(points := s.points - {k.entity}, outbox := s.outbox[k := Finished]);
    hide Next, Enabled;
    Unrolled(s, Drained(n, k), [s, one, two, three], how);
  }

  lemma LatePut(s: State, i: nat, id: Id, how: Discipline)
    requires i in s.workers && s.workers[i].Writing? && id in s.workers[i].found && id !in s.rows
    requires !Owed(s, Key(id, 0, Delete))
    ensures Enabled(s, PutChildren(i, {id}, false), how) && !PointsCovered(Next(s, PutChildren(i, {id}, false)))
  {
    PointLost(Next(s, PutChildren(i, {id}, false)), id);
  }

  /** A re-commit that waits for everything, a second drain clearing the replaced row, and then the first one's write. */
  function LateApply(m: nat, n: nat, j: nat, d: Id, id: Id, other: Id): seq<Action> {
    [Commit(j, d, {}, {other})] + Drained(n, Key(id, 0, Delete)) + [DrainApplies(m), DrainAcks(m)]
  }

  /** Drain m has read this row and is about to write its point. */
  predicate AboutToPut(s: State, m: nat, d: Id, id: Id) {
    && m in s.drains && s.drains[m].Holding? && s.drains[m].effect.Put? && s.drains[m].key == Key(id, 1, Upsert)
    && id in s.rows && s.rows[id].document == d
  }

  /** Whenever a drain has read a row and is still to write its point, a second commit, once no ingest is in its way, and
      a second drain can leave it writing the point of a row that is gone, with nothing owed and nothing under way. */
  lemma DrainingAloneIsNeeded(s: State, m: nat, n: nat, j: nat, d: Id, id: Id, other: Id)
    requires RowsInv(s) && AboutToPut(s, m, d, id) && n !in s.drains && MayCommit(s, d, AfterWrite)
    requires j !in s.workers && other !in s.used
    ensures var acts := LateApply(m, n, j, d, id, other);
            Valid(s, acts, UNGUARDED) && !PointsCovered(Run(s, acts))
  {
    hide RowsInv, PointsCovered, RowsOf, MayCommit, Next, Enabled, Drained, BeforePurge;
    var commit, k := Commit(j, d, {}, {other}), Key(id, 0, Delete);
    HeldIsLive(s, m, d, id);
    CommitStep(s, j, d, other, UNGUARDED);
    var t := Next(s, commit);
    assert !BeforePurge(t, id) by { NoneHolds(s, t, j, d, id, other); }
    DrainDeletes(t, n, k, UNGUARDED);
    var u := Run(t, Drained(n, k));
    LateApplies(u, m, d, id);
    Unrolled(s, [commit], [s, t], UNGUARDED);
    RunJoins(s, [commit], Drained(n, k), UNGUARDED);
    RunJoins(s, [commit] + Drained(n, k), [DrainApplies(m), DrainAcks(m)], UNGUARDED);
  }

  lemma HeldIsLive(s: State, m: nat, d: Id, id: Id)
    requires RowsInv(s) && AboutToPut(s, m, d, id)
    ensures id in RowsOf(s, d) && id in s.used && Key(id, 0, Delete) !in s.outbox
    ensures forall i :: i in s.workers && s.workers[i].Committed? ==> id !in s.workers[i].children
  {
    hide RowsCovered, Apart, DrainsOk;
    assert Taken(s, id);
    WorkersFine(s);
  }

  lemma NoneHolds(s: State, t: State, j: nat, d: Id, id: Id, other: Id)
    requires t.workers == s.workers[j := Committed(d, {other})] && id != other
    requires forall i :: i in s.workers && s.workers[i].Committed? ==> id !in s.workers[i].children
    ensures !BeforePurge(t, id)
  {
  }

  lemma LateApplies(s: State, m: nat, d: Id, id: Id)
    requires m in s.drains && s.drains[m].Holding? && s.drains[m].effect.Put? && s.drains[m].key == Key(id, 1, Upsert)
    requires id !in s.rows && !Owed(s, Key(id, 0, Delete))
    ensures Valid(s, [DrainApplies(m), DrainAcks(m)], UNGUARDED)
    ensures !PointsCovered(Run(s, [DrainApplies(m), DrainAcks(m)]))
  {
    var one := Next(s, DrainApplies(m));
    var two := Next(one, DrainAcks(m));
    PointLost(two, id);
    Unrolled(s, [DrainApplies(m), DrainAcks(m)], [s, one, two], UNGUARDED);
  }

  /** Each of the four is reached from a fresh install. */
  lemma LossesAreReachable()
    ensures exists acts :: Valid(EMPTY, acts, HASTY) && !RowsCovered(Run(EMPTY, acts))
    ensures exists acts :: Valid(EMPTY, acts, HEEDLESS) && !RowsCovered(Run(EMPTY, acts))
    ensures exists acts :: Valid(EMPTY, acts, AFTER_PURGE) && !PointsCovered(Run(EMPTY, acts))
    ensures exists acts :: Valid(EMPTY, acts, UNGUARDED) && !PointsCovered(Run(EMPTY, acts))
  {
    hide Next, Enabled, RowsCovered, PointsCovered, AboutToPurge, HastyDrain, LateWrite, RowsInv;
    var commit := Commit(0, 7, {}, {1});
    var s := Next(EMPTY, commit);
    forall how: Discipline ensures Valid(EMPTY, [commit], how) && Run(EMPTY, [commit]) == s {
      FirstCommit(how);
      Unrolled(EMPTY, [commit], [EMPTY, s], how);
    }
    FirstCommit(STRICT);
    KeepingApartIsNeeded(s, 0, 0, 7, 1);
    RunJoins(EMPTY, [commit], HastyDrain(0, 0, 1), HASTY);
    assert Valid(EMPTY, [commit] + HastyDrain(0, 0, 1), HASTY);
    var overlap := WaitingForPurgesIsNeeded(s, 0, 1, 7, 2);
    RunJoins(EMPTY, [commit], overlap, HEEDLESS);
    assert Valid(EMPTY, [commit] + overlap, HEEDLESS);
    LateWriteReachable(s);
    LateApplyReachable(s);
  }

  lemma FirstCommit(how: Discipline)
    ensures Enabled(EMPTY, Commit(0, 7, {}, {1}), how)
    ensures var s := Next(EMPTY, Commit(0, 7, {}, {1}));
            && AboutToPurge(s, 0, 7, 1) && s.workers == map[0 := Committed(7, {1})] && s.used == {1}
            && s.points == map[] && s.rows == map[1 := Row(7, 1, true)] && s.drains == map[]
            && Key(1, 1, Upsert) in s.outbox && Key(2, 1, Upsert) !in s.outbox
  {
    assert Key(1, 1, Upsert) in UpsertKeys({1});
  }

  lemma LateWriteReachable(s: State)
    requires s == Next(EMPTY, Commit(0, 7, {}, {1}))
    ensures exists acts :: Valid(EMPTY, acts, AFTER_PURGE) && !PointsCovered(Run(EMPTY, acts))
  {
    hide Next, Enabled, RowsInv, PointsCovered, LateWrite, MayCommit;
    var first := [Commit(0, 7, {}, {1}), Purge(0, {}), ReadRows(0)];
    var t := FirstRead(s, AFTER_PURGE);
    EmptyIsFine();
    RowsCoveredAlways(EMPTY, first, AFTER_PURGE);
    WaitingForWritesIsNeeded(t, 0, 1, 0, 7, 1, 2);
    RunJoins(EMPTY, first, LateWrite(t, 0, 1, 0, 7, 1, 2), AFTER_PURGE);
    assert Valid(EMPTY, first + LateWrite(t, 0, 1, 0, 7, 1, 2), AFTER_PURGE);
  }

  lemma FirstPurge(s: State, how: Discipline) returns (t: State)
    requires s == Next(EMPTY, Commit(0, 7, {}, {1}))
    ensures Enabled(EMPTY, Commit(0, 7, {}, {1}), how) && Enabled(s, Purge(0, {}), how) && t == Next(s, Purge(0, {}))
    ensures t.workers == map[0 := Purged(7, {1})] && t.drains == map[] && t.rows == map[1 := Row(7, 1, true)]
    ensures t.used == {1} && Key(1, 1, Upsert) in t.outbox
  {
    hide Next, Enabled;
    FirstCommit(how);
    assert PointsOfDocument(s, 7) == {};
    PurgeStep(s, 0, 7, {1}, how);
    t := Next(s, Purge(0, {}));
  }

  lemma FirstRead(s: State, how: Discipline) returns (t: State)
    requires s == Next(EMPTY, Commit(0, 7, {}, {1}))
    ensures var first := [Commit(0, 7, {}, {1}), Purge(0, {}), ReadRows(0)];
            Valid(EMPTY, first, how) && t == Run(EMPTY, first)
    ensures t.workers == map[0 := Writing(7, {1})] && MayCommit(t, 7, AfterPurge)
    ensures t.drains == map[] && 1 in t.rows && t.used == {1}
  {
    hide Next, Enabled;
    var first := [Commit(0, 7, {}, {1}), Purge(0, {}), ReadRows(0)];
    var purged := FirstPurge(s, how);
    ReadStep(purged, 0, 7, {1}, how);
    t := Next(purged, ReadRows(0));
    assert {1} * purged.rows.Keys == {1};
    Unrolled(EMPTY, first, [EMPTY, s, purged, t], how);
  }

  lemma LateApplyReachable(s: State)
    requires s == Next(EMPTY, Commit(0, 7, {}, {1}))
    ensures exists acts :: Valid(EMPTY, acts, UNGUARDED) && !PointsCovered(Run(EMPTY, acts))
  {
    hide Next, Enabled, RowsInv, PointsCovered, LateApply;
    var first := [Commit(0, 7, {}, {1}), Purge(0, {}), WorkerStops(0), DrainReads(0, Key(1, 1, Upsert))];
    var purged := FirstPurge(s, UNGUARDED);
    StopStep(purged, 0, UNGUARDED);
    var stopped := Next(purged, WorkerStops(0));
    var t := Next(stopped, first[3]);
    FirstHeld(stopped);
    Unrolled(EMPTY, first, [EMPTY, s, purged, stopped, t], UNGUARDED);
    EmptyIsFine();
    RowsCoveredAlways(EMPTY, first, UNGUARDED);
    DrainingAloneIsNeeded(t, 0, 1, 0, 7, 1, 2);
    RunJoins(EMPTY, first, LateApply(0, 1, 0, 7, 1, 2), UNGUARDED);
    assert Valid(EMPTY, first + LateApply(0, 1, 0, 7, 1, 2), UNGUARDED);
  }

  lemma FirstHeld(s: State)
    requires s.workers == map[] && s.drains == map[] && s.rows == map[1 := Row(7, 1, true)] && Key(1, 1, Upsert) in s.outbox
    ensures var t := Next(s, DrainReads(0, Key(1, 1, Upsert)));
            && Enabled(s, DrainReads(0, Key(1, 1, Upsert)), UNGUARDED)
            && AboutToPut(t, 0, 7, 1) && t.workers == map[] && t.used == s.used && 1 !in t.drains
  {
  }

  // ── the code that takes these steps ────────────────────────────────────────

  /** mark_done for a set of children: only a pending upsert intent flips. */
  function Acked(outbox: map<Key, Status>, ids: set<Id>): map<Key, Status> {
    map k | k in outbox ::
      if k.operation == Upsert && k.revision == 1 && k.entity in ids && outbox[k] == Pending then Finished else outbox[k]
  }

  /** The fast path when nothing fails: purge, write the children that still have a row, ack them. */
  function FastPath(s: State, d: Id, children: set<Id>): State {
    var live := children * s.rows.Keys;
    s.(points := (s.points - PointsOfDocument(s, d)) + (map id | id in live :: PointOf(s.rows[id])),
       outbox := Acked(s.outbox, live))
  }

  /** What a commit does to the tables: the document's old rows out, the new ones in, every other row as it was; the
      intents that were there as they were, and beside them a delete per old row and an upsert per new child. */
  lemma CommitWrites(s: State, i: nat, d: Id, parents: set<Id>, children: set<Id>, id: Id, k: Key)
    requires parents !! children && (parents + children) !! s.rows.Keys
    ensures var t := Next(s, Commit(i, d, parents, children));
            && (id in parents ==> id in t.rows && t.rows[id] == Row(d, 1, false))
            && (id in children ==> id in t.rows && t.rows[id] == Row(d, 1, true))
            && (id !in parents + children ==>
                  (id in t.rows <==> id in s.rows && s.rows[id].document != d)
                  && (id in t.rows ==> t.rows[id] == s.rows[id]))
            && t.points == s.points
            && (k in s.outbox ==> k in t.outbox && t.outbox[k] == s.outbox[k])
            && (k !in s.outbox ==>
                  (k in t.outbox <==>
                     || (k.entity in s.rows && s.rows[k.entity].document == d && k == Key(k.entity, 0, Delete))
                     || (k.entity in children && k == Key(k.entity, 1, Upsert)))
                  && (k in t.outbox ==> t.outbox[k] == Pending))
  {
    if k.entity in RowsOf(s, d) { assert Key(k.entity, 0, Delete) in DeleteKeys(RowsOf(s, d)); }
    if k.entity in children { assert Key(k.entity, 1, Upsert) in UpsertKeys(children); }
  }

  /** And what the fast path does: the document's points out, a point for each child that has a row, every other point as
      it was; of the intents only those children's pending upserts, which are done. */
  lemma FastPathWrites(s: State, d: Id, children: set<Id>, id: Id, k: Key)
    requires forall x :: x in children && x in s.rows ==> s.rows[x] == Row(d, 1, true)
    ensures var t := FastPath(s, d, children);
            && t.rows == s.rows && t.outbox.Keys == s.outbox.Keys
            && (id in children && id in s.rows ==> id in t.points && t.points[id] == Point(d, 1))
            && (!(id in children && id in s.rows) ==>
                  (id in t.points <==> id in s.points && s.points[id].document != d)
                  && (id in t.points ==> t.points[id] == s.points[id]))
            && (k in s.outbox ==>
                  t.outbox[k] == if k.entity in children && k.entity in s.rows && k == Key(k.entity, 1, Upsert)
                                    && s.outbox[k] == Pending
                                 then Finished else s.outbox[k])
  {
  }

  function KeysFor(ids: set<Id>, operation: Operation): set<Key> {
    if operation == Delete then DeleteKeys(ids) else UpsertKeys(ids)
  }

  lemma OneMoreKey(outbox: map<Key, Status>, keys: set<Key>, k: Key)
    ensures Enqueued(Enqueued(outbox, keys), {k}) == Enqueued(outbox, keys + {k})
  {
  }

  lemma EnqueuedTwice(outbox: map<Key, Status>, a: set<Key>, b: set<Key>)
    ensures Enqueued(Enqueued(outbox, a), b) == Enqueued(outbox, a + b)
  {
  }

  class ChunkTables {
    var rows: map<Id, Row>
    var points: map<Id, Point>
    var outbox: map<Key, Status>
    var used: set<Id>

    function View(): State
      reads this
    {
      State(rows, points, outbox, used, map[], map[])
    }

    method Enqueue(k: Key)
      modifies this`outbox
      ensures outbox == Enqueued(old(outbox), {k})
    {
      if k !in outbox {
        outbox := outbox[k := Pending];
      }
    }

    method EnqueueAll(ids: set<Id>, operation: Operation)
      modifies this`outbox
      ensures outbox == Enqueued(old(outbox), KeysFor(ids, operation))
    {
      var todo := ids;
      assert KeysFor(ids - todo, operation) == {};
      while todo != {}
        invariant todo <= ids
        invariant outbox == Enqueued(old(outbox), KeysFor(ids - todo, operation))
      {
        var id :| id in todo;
        var k := Key(id, if operation == Delete then 0 else 1, operation);
        Enqueue(k);
        OneMoreKey(old(outbox), KeysFor(ids - todo, operation), k);
        assert KeysFor(ids - (todo - {id}), operation) == KeysFor(ids - todo, operation) + {k};
        todo := todo - {id};
      }
      assert ids - todo == ids;
    }

    /** The canonical chunk transaction: old rows out with their delete intents, new rows in with the children's
        upsert intents, one commit. */
    method CommitChunks(document: Id, parents: set<Id>, children: set<Id>)
      requires parents !! children && (parents + children) !! used
      modifies this
      ensures View() == Next(old(View()), Commit(0, document, parents, children)).(workers := map[])
    {
      hide Enqueued, DeleteKeys, UpsertKeys;
      var leaving := RowsOf(View(), document);
      rows := rows - leaving;
      EnqueueAll(leaving, Delete);
      rows := rows + (map id | id in parents + children :: Row(document, 1, id in children));
      EnqueueAll(children, Upsert);
      used := used + parents + children;
      EnqueuedTwice(old(outbox), DeleteKeys(leaving), UpsertKeys(children));
    }

    method MarkDone(ids: set<Id>)
      requires forall id :: id in ids ==> id in rows && rows[id].revision == 1
      modifies this`outbox
      ensures outbox == Acked(old(outbox), ids)
    {
      var todo := ids;
      while todo != {}
        invariant todo <= ids
        invariant outbox == Acked(old(outbox), ids - todo)
      {
        var id :| id in todo;
        var k := Key(id, rows[id].revision, Upsert);
        if k in outbox && outbox[k] == Pending {
          outbox := outbox[k := Finished];
        }
        todo := todo - {id};
      }
      assert ids - todo == ids;
    }

    /** The post-commit attempt. An upsert that does not land leaves every intent pending. */
    method IndexDocumentChunks(document: Id, children: set<Id>, lands: bool)
      requires forall id :: id in children && id in rows ==> rows[id].revision == 1
      modifies this`points, this`outbox
      ensures lands ==> View() == FastPath(old(View()), document, children)
      ensures !lands ==> points == old(points) - PointsOfDocument(old(View()), document) && outbox == old(outbox)
    {
      points := points - PointsOfDocument(View(), document);
      var live := children * rows.Keys;
      if live == {} || !lands {
        assert live == {} ==> Acked(outbox, live) == outbox;
        assert live == {} ==> points == FastPath(old(View()), document, children).points;
        return;
      }
      points := points + (map id | id in live :: PointOf(rows[id]));
      assert points == FastPath(old(View()), document, children).points;
      MarkDone(live);
    }
  }

  lemma {:induction false} AcksOneByOne(s: State, i: nat, ids: set<Id>, how: Discipline) returns (acts: seq<Action>)
    requires i in s.workers && s.workers[i].Acking? && ids <= s.workers[i].landed && ids <= s.rows.Keys
    ensures Valid(s, acts, how) && Run(s, acts) == s.(outbox := Acked(s.outbox, ids))
    ensures forall a :: a in acts ==> OfIngest(a, i)
    decreases ids
  {
    if ids == {} {
      acts := [];
      assert Acked(s.outbox, {}) == s.outbox;
    } else {
      var id :| id in ids;
      var before := AcksOneByOne(s, i, ids - {id}, how);
      var t := Run(s, before);
      assert Next(t, AckChild(i, id)).outbox == Acked(s.outbox, ids);
      Unrolled(t, [AckChild(i, id)], [t, Next(t, AckChild(i, id))], how);
      RunJoins(s, before, [AckChild(i, id)], how);
      acts := before + [AckChild(i, id)];
    }
  }

  lemma PurgeReadPut(s: State, i: nat, d: Id, children: set<Id>, how: Discipline) returns (acts: seq<Action>)
    requires i in s.workers && s.workers[i] == Committed(d, children)
    requires forall id :: id in children && id in s.rows ==> s.rows[id] == Row(d, 1, true)
    ensures var live := children * s.rows.Keys;
            Valid(s, acts, how)
            && Run(s, acts) == s.(points := FastPath(s, d, children).points, workers := s.workers[i := Acking(d, live)])
    ensures forall a :: a in acts ==> OfIngest(a, i)
  {
    var live := children * s.rows.Keys;
    var purge, put := Purge(i, PointsOfDocument(s, d)), PutChildren(i, live, true);
    PurgeStep(s, i, d, children, how);
    var one := Next(s, purge);
    ReadStep(one, i, d, children, how);
    var two := Next(one, ReadRows(i));
    PutStep(two, i, d, live, how);
    var three := Next(two, put);
    acts := [purge, ReadRows(i), put];
    hide Next, Enabled, PointsOfDocument;
    assert three.workers == s.workers[i := Acking(d, live)];
    Unrolled(s, acts, [s, one, two, three], how);
  }

  /** The fast path is a run of the protocol, so every point inside it is a crash point that stays covered. */
  lemma FastPathIsARun(s: State, i: nat, d: Id, children: set<Id>, how: Discipline) returns (acts: seq<Action>)
    requires i in s.workers && s.workers[i] == Committed(d, children)
    requires forall id :: id in children && id in s.rows ==> s.rows[id] == Row(d, 1, true)
    ensures Valid(s, acts, how) && Run(s, acts) == FastPath(s, d, children).(workers := s.workers - {i})
    ensures forall a :: a in acts ==> OfIngest(a, i)
  {
    hide Acked, PointsOfDocument;
    var live := children * s.rows.Keys;
    var start := PurgeReadPut(s, i, d, children, how);
    var two := Run(s, start);
    var acks := AcksOneByOne(two, i, live, how);
    var three := Run(two, acks);
    StopStep(three, i, how);
    var stop := Next(three, WorkerStops(i));
    hide Next, Enabled;
    assert stop.workers == s.workers - {i};
    Unrolled(three, [WorkerStops(i)], [three, stop], how);
    RunJoins(s, start, acks, how);
    RunJoins(s, start + acks, [WorkerStops(i)], how);
    acts := start + acks + [WorkerStops(i)];
  }
}
