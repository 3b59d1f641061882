/** The versioned SQLite ladder: user_version 0..3, shared by the app's boot and the migration's expand. */
module Ladder {
  import opened Manifest

  const SCHEMA_VERSION := 3
  const V2_TABLES: set<string> := {"index_outbox", "index_generations", "memory_suppressions"}
  // The v1 tables the ladder names; every other v1 table is covered by Probe.v1Columns.
  const V1_TABLES: set<string> := {"users", "memories", "document_chunks"}

  datatype Db = Db(version: int, tables: set<string>, rows: Rows)

  /** What the file system and the pragmas answer during one run of the ladder. */
  datatype Probe = Probe(v1Columns: bool, preV2Backup: bool, foreignKeys: bool, milestoneBackup: bool, integrity: bool)

  datatype Outcome = Done | Raised(message: string)

  /** When one run of the ladder completes instead of raising. */
  predicate Accepts(db: Db, probe: Probe) {
    && 0 <= db.version <= SCHEMA_VERSION
    && (db.version == 0 && db.tables != {} ==> V1_TABLES <= db.tables && probe.v1Columns)
    && (db.version != 0 ==> {"users", "memories"} <= db.tables)
    && (db.version == 1 ==> "document_chunks" in db.tables)
    && (db.version <= 1 && db.tables != {} ==> probe.preV2Backup && probe.foreignKeys)
    && (db.version == 2 ==> "index_generations" in db.tables)
    && (db.version <= 2 && db.tables != {} ==> probe.milestoneBackup)
    && probe.integrity
  }

  /** The database after a completed run. */
  function Upgraded(db: Db, c: Contract): Db {
    Db(SCHEMA_VERSION,
       if db.version == 0 && db.tables == {} then V1_TABLES + V2_TABLES
       else if db.version <= 1 then db.tables + V2_TABLES else db.tables,
       if db.version == SCHEMA_VERSION then db.rows
       else Activated(db.rows, c, db.version == 0 && db.tables == {}))
  }

  class SqliteDatabase {
    var version: int
    var tables: set<string>
    var rows: Rows

    constructor (db: Db)
      ensures State() == db
    {
      version, tables, rows := db.version, db.tables, db.rows;
    }

    function State(): Db
      reads this
    {
      Db(version, tables, rows)
    }

    /** One transaction: an exception rolls every step back. */
    method UpgradeSqliteSchema(c: Contract, probe: Probe) returns (outcome: Outcome)
      modifies this
      ensures outcome.Done? <==> Accepts(old(State()), probe)
      ensures outcome.Done? ==> State() == Upgraded(old(State()), c)
      ensures outcome.Raised? ==> State() == old(State())
    {
      var work := new GenerationTable(rows);
      var names := tables;
      var newInstall := version == 0 && tables == {};
      if !(version in {0, 1, 2, SCHEMA_VERSION}) {
        return Raised("unsupported SQLite schema version");
      }
      if version == 0 {
        if tables == {} {
          names := V1_TABLES + V2_TABLES;
        } else if !(V1_TABLES <= tables && probe.v1Columns) {
          return Raised("existing SQLite schema does not match");
        }
      } else if !({"users", "memories"} <= tables) {
        return Raised("required tables are missing");
      }
      if version in {0, 1} && tables != {} {
        if !probe.preV2Backup {
          return Raised("existing migration backup is empty or unreadable");
        }
        if "document_chunks" !in tables {
          return Raised("no such table: document_chunks");
        }
        names := names + V2_TABLES;
        if !probe.foreignKeys {
          return Raised("SQLite foreign_key_check found violations");
        }
      }
      if version in {0, 1, 2} && tables != {} && !probe.milestoneBackup {
        return Raised("existing migration backup is empty or unreadable");
      }
      if version in {0, 1, 2} {
        if "index_generations" !in names {
          return Raised("no such table: index_generations");
        }
        work.ActivateGenerations(c, newInstall);
      }
      if !probe.integrity {
        return Raised("SQLite integrity_check failed");
      }
      version, tables, rows := SCHEMA_VERSION, names, work.rows;
      return Done;
    }
  }

  // ── any sequence of boots, expands, cutovers and rolled-back copies ───────

  /** A boot and an expand both run the ladder. A cutover flips the pointer of both kinds. A rollback
      copies the database with whatever manifest it stamps and sets the version back to 2. */
  datatype Op = Boot(contract: Contract, probe: Probe)
              | Expand(contract: Contract, probe: Probe)
              | Cutover(contract: Contract)
              | RollBack(stamped: Rows)

  function Apply(db: Db, op: Op): Db {
    match op
    case Boot(c, probe) => if Accepts(db, probe) then Upgraded(db, c) else db
    case Expand(c, probe) => if Accepts(db, probe) then Upgraded(db, c) else db
    case Cutover(c) => db.(rows := Activated(db.rows, c, true))
    case RollBack(stamped) => db.(version := 2, rows := stamped)
  }

  function Replay(db: Db, ops: seq<Op>): Db {
    if ops == [] then db else Apply(Replay(db, ops[..|ops| - 1]), ops[|ops| - 1])
  }

  /** Where the last deliberate pointer move left a kind: boots and expands are ignored. */
  function Pointer(db: Db, ops: seq<Op>, kind: Kind): set<string> {
    if ops == [] then ActiveSet(db.rows, kind) else
      match ops[|ops| - 1]
      case Cutover(c) => {GenerationName(kind, c)}
      case RollBack(stamped) => ActiveSet(stamped, kind)
      case _ => Pointer(db, ops[..|ops| - 1], kind)
  }

  /** What each version asks of the database and of the run's checks. */
  lemma LadderByVersion(db: Db, probe: Probe)
    ensures db.version < 0 || db.version > 3 ==> !Accepts(db, probe)
    ensures db.version == 0 && db.tables == {} ==> (Accepts(db, probe) <==> probe.integrity)
    ensures db.version == 0 && db.tables != {} ==>
              (Accepts(db, probe) <==>
                 "users" in db.tables && "memories" in db.tables && "document_chunks" in db.tables && probe.v1Columns
                 && probe.preV2Backup && probe.foreignKeys && probe.milestoneBackup && probe.integrity)
    ensures db.version == 1 ==>
              (Accepts(db, probe) <==>
                 "users" in db.tables && "memories" in db.tables && "document_chunks" in db.tables
                 && probe.preV2Backup && probe.foreignKeys && probe.milestoneBackup && probe.integrity)
    ensures db.version == 2 ==>
              (Accepts(db, probe) <==>
                 "users" in db.tables && "memories" in db.tables && "index_generations" in db.tables
                 && probe.milestoneBackup && probe.integrity)
    ensures db.version == 3 ==>
              (Accepts(db, probe) <==> "users" in db.tables && "memories" in db.tables && probe.integrity)
  {
  }

  /** A fresh install ends at version 3 with all tables and exactly the contract's own row per kind, active. */
  lemma FreshInstallServesItsOwn(db: Db, c: Contract, kind: Kind)
    requires db.version == 0 && db.tables == {} && db.rows == map[]
    ensures Upgraded(db, c).version == 3
    ensures Upgraded(db, c).tables == {"users", "memories", "document_chunks", "index_outbox", "index_generations",
                                       "memory_suppressions"}
    ensures Upgraded(db, c).rows == map[Target(Memory, c) := Entry(c.token, true), Target(Chunk, c) := Entry(c.token, true)]
    ensures ActiveSet(Upgraded(db, c).rows, kind) == {GenerationName(kind, c)}
  {
    FlipLeavesOneActive(map[], c, kind);
    assert Target(Memory, c) != Target(Chunk, c);
  }

  /** An upgrade gets to version 3, drops no table, and adds its target rows without making them active. */
  lemma UpgradeAddsInactive(db: Db, c: Contract, kind: Kind)
    requires db.tables != {} && 0 <= db.version < 3
    ensures Upgraded(db, c).version == 3 && db.tables <= Upgraded(db, c).tables
    ensures Upgraded(db, c).tables
              == db.tables + if db.version < 2 then {"index_outbox", "index_generations", "memory_suppressions"} else {}
    ensures Target(kind, c) in Upgraded(db, c).rows && Upgraded(db, c).rows[Target(kind, c)].fingerprint == c.token
    ensures Target(kind, c) !in db.rows ==> !Upgraded(db, c).rows[Target(kind, c)].active
    ensures forall k :: k in db.rows && k.generation != GenerationName(k.kind, c) ==>
              k in Upgraded(db, c).rows && Upgraded(db, c).rows[k] == db.rows[k]
  {
    ExpandMovesNoPointer(db.rows, c, kind);
    assert Target(Memory, c) != Target(Chunk, c);
    forall k | k in db.rows && k.generation != GenerationName(k.kind, c) ensures k != Target(k.kind, c) { }
  }

  lemma LadderMovesNoPointer(db: Db, c: Contract, kind: Kind)
    requires db.tables != {}
    ensures ActiveSet(Upgraded(db, c).rows, kind) == ActiveSet(db.rows, kind)
    ensures Upgraded(db, c).tables != {}
  {
    ExpandMovesNoPointer(db.rows, c, kind);
    assert db.tables <= Upgraded(db, c).tables;
  }

  /** On an install that already has tables, no boot and no expand ever moves the pointer: after any
      sequence of operations each kind serves exactly what the last cutover or rollback chose. */
  lemma {:induction false} OnlyCutoverAndRollbackMovePointers(db: Db, ops: seq<Op>, kind: Kind)
    requires db.tables != {}
    ensures ActiveSet(Replay(db, ops).rows, kind) == Pointer(db, ops, kind)
    ensures Replay(db, ops).tables != {}
  {
    if ops == [] {
    } else {
      var before := Replay(db, ops[..|ops| - 1]);
      OnlyCutoverAndRollbackMovePointers(db, ops[..|ops| - 1], kind);
      match ops[|ops| - 1]
      case Boot(c, _) => LadderMovesNoPointer(before, c, kind);
      case Expand(c, _) => LadderMovesNoPointer(before, c, kind);
      case Cutover(c) => FlipLeavesOneActive(before.rows, c, kind);
      case RollBack(_) =>
    }
  }

  predicate IsLadder(op: Op) { op.Boot? || op.Expand? }

  function ContractOf(op: Op): Contract
    requires IsLadder(op)
  {
    op.contract
  }

  /** A run of boots and expands: the version never falls, the manifest is touched at most once and only
      on the transition to version 3, and from version 3 on nothing changes at all. */
  lemma {:induction false} BootsAreQuiet(db: Db, ops: seq<Op>)
    requires forall i :: 0 <= i < |ops| ==> IsLadder(ops[i])
    ensures Replay(db, ops).version
              == db.version || (db.version < SCHEMA_VERSION && Replay(db, ops).version == SCHEMA_VERSION)
    ensures db.version == SCHEMA_VERSION ==> Replay(db, ops) == db
    ensures Replay(db, ops).version == db.version ==> Replay(db, ops) == db
    ensures Replay(db, ops) != db ==>
              exists i :: 0 <= i < |ops| && Replay(db, ops) == Upgraded(db, ContractOf(ops[i]))
  {
    if ops == [] {
    } else {
      var shorter := ops[..|ops| - 1];
      BootsAreQuiet(db, shorter);
      var last := ops[|ops| - 1];
      var before := Replay(db, shorter);
      if before == db {
        if Replay(db, ops) != db {
          assert Replay(db, ops) == Upgraded(db, ContractOf(ops[|ops| - 1]));
        }
      } else {
        var i :| 0 <= i < |shorter| && before == Upgraded(db, ContractOf(shorter[i]));
        assert shorter[i] == ops[i];
        assert Replay(db, ops) == before;
      }
    }
  }

  /** Boots never undo a deliberate choice: whatever a cutover or a rollback left survives any later boots. */
  lemma {:induction false} BootsKeepTheChoice(db: Db, ops: seq<Op>, boots: seq<Op>, kind: Kind)
    requires db.tables != {}
    requires forall i :: 0 <= i < |boots| ==> IsLadder(boots[i])
    ensures ActiveSet(Replay(db, ops + boots).rows, kind) == ActiveSet(Replay(db, ops).rows, kind)
  {
    if boots == [] {
      assert ops + boots == ops;
    } else {
      var all := ops + boots;
      assert all[..|all| - 1] == ops + boots[..|boots| - 1];
      assert all[|all| - 1] == boots[|boots| - 1];
      BootsKeepTheChoice(db, ops, boots[..|boots| - 1], kind);
      OnlyCutoverAndRollbackMovePointers(db, ops + boots[..|boots| - 1], kind);
      OnlyCutoverAndRollbackMovePointers(db, all, kind);
    }
  }
}
