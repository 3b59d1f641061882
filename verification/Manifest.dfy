/** The index_generations manifest and the SQLite version ladder (app/database.py). */
module Manifest {

  datatype Kind = Memory | Chunk

  const KINDS: seq<Kind> := [Memory, Chunk]

  /** An embedding contract: its canonical form and its 64-digit token (a hash of the canonical form). */
  datatype Contract = Contract(canonical: string, token: string)

  function Family(kind: Kind): string {
    match kind
    case Memory => "orivory_memories"
    case Chunk => "orivory_chunks"
  }

  /** The physical collection a contract's vectors of one kind live in: only 8 digits of the token are kept. */
  function GenerationName(kind: Kind, c: Contract): string {
    Family(kind) + "__" + (if |c.token| < 8 then c.token else c.token[..8])
  }

  /** The two kinds never share a physical name, whatever contracts they are built with. */
  lemma GenerationNamesDiffer(c: Contract, d: Contract)
    ensures GenerationName(Memory, c) != GenerationName(Chunk, d)
  {
    assert GenerationName(Memory, c)[8] == 'm';
    assert GenerationName(Chunk, d)[8] == 'c';
  }

  // The table's unique key is (kind, generation), so a row is an entry of a map.
  datatype Key = Key(kind: Kind, generation: string)
  datatype Entry = Entry(fingerprint: string, active: bool)
  type Rows = map<Key, Entry>

  function Target(kind: Kind, c: Contract): Key {
    Key(kind, GenerationName(kind, c))
  }

  /** The generations of one kind whose row is active. */
  function ActiveSet(rows: Rows, kind: Kind): set<string> {
    set k | k in rows && k.kind == kind && rows[k].active :: k.generation
  }

  /** UPDATE ... SET is_active = false WHERE kind = ? AND generation != ? */
  function Retire(rows: Rows, kind: Kind, generation: string): Rows {
    map k | k in rows :: if k.kind == kind && k.generation != generation then rows[k].(active := false) else rows[k]
  }

  /** INSERT of a missing row, or UPDATE of the fingerprint (and, when flipping, of the active flag). */
  function Stamp(rows: Rows, key: Key, token: string, activate: bool): Rows {
    if key !in rows then rows[key := Entry(token, activate)]
    else rows[key := Entry(token, activate || rows[key].active)]
  }

  /** What activating (or only expanding) the contract c means for the whole table. */
  function Activated(rows: Rows, c: Contract, activate: bool): Rows {
    map k | k in rows.Keys + {Target(Memory, c), Target(Chunk, c)} ::
      if k == Target(k.kind, c) then Entry(c.token, activate || (k in rows && rows[k].active))
      else if activate then rows[k].(active := false)
      else rows[k]
  }

  function ActivateKind(rows: Rows, kind: Kind, c: Contract, activate: bool): Rows {
    Stamp(if activate then Retire(rows, kind, GenerationName(kind, c)) else rows, Target(kind, c), c.token, activate)
  }

  /** Handling the kinds one after the other, retire first, is the simultaneous change. */
  lemma KindByKind(rows: Rows, c: Contract, activate: bool)
    ensures ActivateKind(ActivateKind(rows, Memory, c, activate), Chunk, c, activate) == Activated(rows, c, activate)
  {
    GenerationNamesDiffer(c, c);
    var one := ActivateKind(rows, Memory, c, activate);
    var two := ActivateKind(one, Chunk, c, activate);
    assert one.Keys == rows.Keys + {Target(Memory, c)};
    assert two.Keys == rows.Keys + {Target(Memory, c), Target(Chunk, c)};
    forall k | k in two ensures two[k] == Activated(rows, c, activate)[k] {
      match k.kind
      case Memory =>
        assert two[k] == one[k];
      case Chunk =>
        assert k in rows ==> one[k] == rows[k];
    }
  }

  /** The index_generations table as the migration and the ladder update it. */
  class GenerationTable {
    var rows: Rows

    constructor (initial: Rows)
      ensures rows == initial
    {
      rows := initial;
    }

    method ActivateGenerations(c: Contract, activate: bool)
      modifies this
      ensures rows == Activated(old(rows), c, activate)
    {
      for i := 0 to |KINDS|
        invariant i == 0 ==> rows == old(rows)
        invariant i == 1 ==> rows == ActivateKind(old(rows), Memory, c, activate)
        invariant i == 2 ==> rows == ActivateKind(ActivateKind(old(rows), Memory, c, activate), Chunk, c, activate)
      {
        var kind := KINDS[i];
        if activate {
          rows := Retire(rows, kind, GenerationName(kind, c));
        }
        rows := Stamp(rows, Target(kind, c), c.token, activate);
      }
      KindByKind(old(rows), c, activate);
    }
  }

  /** A flip leaves exactly one active row per kind, the contract's own, carrying its token. */
  lemma FlipLeavesOneActive(rows: Rows, c: Contract, kind: Kind)
    ensures ActiveSet(Activated(rows, c, true), kind) == {GenerationName(kind, c)}
    ensures Target(kind, c) in Activated(rows, c, true)
    ensures Activated(rows, c, true)[Target(kind, c)].fingerprint == c.token
  {
    var after := Activated(rows, c, true);
    assert Target(kind, c) in after && after[Target(kind, c)].active;
    forall k | k in after && k.kind == kind && after[k].active
      ensures k.generation == GenerationName(kind, c)
    {
      assert after[k].active ==> k == Target(k.kind, c);
    }
  }

  /** Only 8 digits of the token tell two collections of one kind apart. */
  lemma SameNameIff(kind: Kind, c: Contract, d: Contract)
    requires |c.token| >= 8 && |d.token| >= 8
    ensures GenerationName(kind, c) == GenerationName(kind, d) <==> c.token[..8] == d.token[..8]
    ensures GenerationName(kind, c)
              == (if kind == Memory then "orivory_memories__" else "orivory_chunks__") + c.token[..8]
  {
    var prefix := Family(kind) + "__";
    assert GenerationName(kind, c)[|prefix|..] == c.token[..8];
    assert GenerationName(kind, d)[|prefix|..] == d.token[..8];
  }

  /** A flip drops no row: it adds the targets that are missing, and every other row of either kind stays, inactive,
      under the contract it was stamped with. */
  lemma FlipKeepsRows(rows: Rows, c: Contract)
    ensures Activated(rows, c, true).Keys == rows.Keys + {Target(Memory, c), Target(Chunk, c)}
    ensures forall k :: k in rows && k.generation != GenerationName(k.kind, c) ==>
              && Activated(rows, c, true)[k].fingerprint == rows[k].fingerprint
              && !Activated(rows, c, true)[k].active
  {
  }

  /** The expand half writes both target rows and moves no pointer. */
  lemma ExpandMovesNoPointer(rows: Rows, c: Contract, kind: Kind)
    ensures ActiveSet(Activated(rows, c, false), kind) == ActiveSet(rows, kind)
    ensures Target(kind, c) in Activated(rows, c, false)
    ensures Activated(rows, c, false)[Target(kind, c)].fingerprint == c.token
    ensures forall k :: k in rows && k != Target(k.kind, c) ==>
              k in Activated(rows, c, false) && Activated(rows, c, false)[k] == rows[k]
  {
    var after := Activated(rows, c, false);
    forall g ensures g in ActiveSet(after, kind) <==> g in ActiveSet(rows, kind) {
      if g in ActiveSet(after, kind) {
        assert Key(kind, g) in after && after[Key(kind, g)].active;
      }
      if g in ActiveSet(rows, kind) {
        assert Key(kind, g) in rows && Key(kind, g) in after && after[Key(kind, g)].active;
      }
    }
  }
}
