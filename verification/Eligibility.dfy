/** Which SQL rows must have a vector: the one definition per kind that migration and rollback share. */
module Eligibility {
  import opened Common
  import opened Manifest

  // An absent source reference is the empty string: both are falsy to the code.
  datatype MemoryRow = MemoryRow(owner: string, revision: int, supersededBy: bool, derivedDirty: bool,
                                 needsCheck: bool, sourceRef: string)
  // The conversation is the parsed chunk_metadata.conversation_id; None when it does not parse.
  datatype ChunkRow = ChunkRow(revision: int, conversation: Option<Id>)

  datatype Sql = Sql(memories: map<Id, MemoryRow>, suppressed: set<(string, string)>,
                     chunks: map<Id, ChunkRow>, conversations: map<Id, string>)

  datatype Lifecycle = Current | NeedsCheck | Dirty | Superseded

  function StateOf(m: MemoryRow): Lifecycle {
    if m.supersededBy then Superseded else if m.derivedDirty then Dirty
    else if m.needsCheck then NeedsCheck else Current
  }

  datatype Reason = SupersededRow | DirtyRow | SuppressedRow | UnownedRow

  datatype Record = Record(revision: int, reason: Option<Reason>, tenant: Option<string>)

  predicate Forgotten(sql: Sql, m: MemoryRow) {
    m.sourceRef != "" && (m.owner, m.sourceRef) in sql.suppressed
  }

  function MemoryRecord(sql: Sql, m: MemoryRow): Record {
    Record(m.revision,
           match StateOf(m)
           case Superseded => Some(SupersededRow)
           case Dirty => Some(DirtyRow)
           case _ => if Forgotten(sql, m) then Some(SuppressedRow) else None,
           Some(m.owner))
  }

  function ChunkRecord(sql: Sql, chunk: ChunkRow): Record {
    if chunk.conversation.Some? && chunk.conversation.value in sql.conversations
    then Record(chunk.revision, None, Some(sql.conversations[chunk.conversation.value]))
    else Record(chunk.revision, Some(UnownedRow), None)
  }

  function SqlRows(sql: Sql, kind: Kind): map<Id, Record> {
    match kind
    case Memory => map id | id in sql.memories :: MemoryRecord(sql, sql.memories[id])
    case Chunk => map id | id in sql.chunks :: ChunkRecord(sql, sql.chunks[id])
  }

  function Eligible(rows: map<Id, Record>): (ids: set<Id>)
    ensures ids <= rows.Keys
  {
    set id | id in rows && rows[id].reason.None?
  }

  /** Every memory row, eligible or not, with the first reason that excludes it. */
  method MemoryRows(sql: Sql) returns (rows: map<Id, Record>)
    ensures rows == SqlRows(sql, Memory)
  {
    rows := map[];
    var todo := sql.memories.Keys;
    while todo != {}
      invariant todo <= sql.memories.Keys
      invariant rows == map id | id in sql.memories && id !in todo :: MemoryRecord(sql, sql.memories[id])
    {
      var id :| id in todo;
      var m := sql.memories[id];
      var state := StateOf(m);
      var reason := None;
      if state == Superseded {
        reason := Some(SupersededRow);
      } else if state == Dirty {
        reason := Some(DirtyRow);
      } else if m.sourceRef != "" && (m.owner, m.sourceRef) in sql.suppressed {
        reason := Some(SuppressedRow);
      }
      rows := rows[id := Record(m.revision, reason, Some(m.owner))];
      todo := todo - {id};
    }
  }

  /** Every chunk row: first the conversations named at all are fetched, then each chunk is given its owner. */
  method ChunkRows(sql: Sql) returns (rows: map<Id, Record>)
    ensures rows == SqlRows(sql, Chunk)
  {
    var named: set<Id> := {};
    var todo := sql.chunks.Keys;
    while todo != {}
      invariant todo <= sql.chunks.Keys
      invariant forall id :: id in sql.chunks && id !in todo && sql.chunks[id].conversation.Some? ==>
                               sql.chunks[id].conversation.value in named
    {
      var id :| id in todo;
      if sql.chunks[id].conversation.Some? {
        named := named + {sql.chunks[id].conversation.value};
      }
      todo := todo - {id};
    }
    var owners := map cid | cid in sql.conversations && cid in named :: sql.conversations[cid];
    rows := map[];
    todo := sql.chunks.Keys;
    while todo != {}
      invariant todo <= sql.chunks.Keys
      invariant rows == map id | id in sql.chunks && id !in todo :: ChunkRecord(sql, sql.chunks[id])
    {
      var id :| id in todo;
      var chunk := sql.chunks[id];
      var owner := if chunk.conversation.Some? && chunk.conversation.value in owners
                   then Some(owners[chunk.conversation.value]) else None;
      rows := rows[id := Record(chunk.revision, if owner.Some? then None else Some(UnownedRow), owner)];
      todo := todo - {id};
    }
  }

  /** The read path serves a memory that is neither superseded nor dirty and whose source is not forgotten. */
  predicate MemoryServed(sql: Sql, id: Id) {
    && id in sql.memories && !sql.memories[id].supersededBy && !sql.memories[id].derivedDirty
    && (sql.memories[id].sourceRef == "" || (sql.memories[id].owner, sql.memories[id].sourceRef) !in sql.suppressed)
  }

  /** And a chunk whose conversation exists. */
  predicate ChunkServed(sql: Sql, id: Id) {
    id in sql.chunks && sql.chunks[id].conversation.Some? && sql.chunks[id].conversation.value in sql.conversations
  }

  predicate Served(sql: Sql, kind: Kind, id: Id) {
    match kind
    case Memory => MemoryServed(sql, id)
    case Chunk => ChunkServed(sql, id)
  }

  /** Whose row it is: a memory's own owner, the owner of a chunk's conversation. */
  function OwnerOf(sql: Sql, kind: Kind, id: Id): string
    requires Served(sql, kind, id)
  {
    match kind
    case Memory => sql.memories[id].owner
    case Chunk => sql.conversations[sql.chunks[id].conversation.value]
  }

  function RevisionOf(sql: Sql, kind: Kind, id: Id): int
    requires Served(sql, kind, id)
  {
    match kind
    case Memory => sql.memories[id].revision
    case Chunk => sql.chunks[id].revision
  }

  /** Eligible is exactly the serve set, and an eligible row's record carries its revision and its owner. */
  lemma EligibleIsServed(sql: Sql, kind: Kind, id: Id)
    ensures id in Eligible(SqlRows(sql, kind)) <==> Served(sql, kind, id)
    ensures Served(sql, kind, id) ==>
              SqlRows(sql, kind)[id] == Record(RevisionOf(sql, kind, id), None, Some(OwnerOf(sql, kind, id)))
  {
    match kind
    case Memory =>
    case Chunk =>
  }

  /** Why a row is left out: superseded before dirty, dirty before forgotten; a chunk only for want of an owner. */
  lemma ReasonsOf(sql: Sql, id: Id)
    ensures id in sql.memories ==>
              var m, reason := sql.memories[id], SqlRows(sql, Memory)[id].reason;
              && (reason == Some(SupersededRow) <==> m.supersededBy)
              && (reason == Some(DirtyRow) <==> m.derivedDirty && !m.supersededBy)
              && (reason == Some(SuppressedRow) <==>
                    !m.derivedDirty && !m.supersededBy && m.sourceRef != "" && (m.owner, m.sourceRef) in sql.suppressed)
              && reason != Some(UnownedRow)
    ensures id in sql.chunks ==>
              SqlRows(sql, Chunk)[id].reason == if ChunkServed(sql, id) then None else Some(UnownedRow)
  {
  }
}
