/** Documents projected into memories (app/ingestion/document_memory.py), with the index intents of
    app/retrieval/memory/outbox.py. */
module Projection {
  import opened Common
  import opened Outbox

  datatype Parent = Parent(chunk: Id, index: int, content: string)

  datatype Place = Whole | Passage(chunk: Id, index: int) | Other

  datatype Memory = Memory(owner: Id, sourceRef: string, parent: Option<Id>, conversation: Option<Id>,
                           title: string, content: string, place: Place, revision: nat)

  /** The unique key of an intent; its row carries the tenant. */
  datatype Key = Key(entity: Id, revision: nat, operation: Operation, generation: string)

  datatype Document = Document(conversation: Id, filename: string)

  datatype State = State(memories: map<Id, Memory>, intents: map<Key, Id>, suppressed: set<(Id, string)>)

  /** Documents and conversation owners, which the projection only reads. */
  datatype Library = Library(documents: map<string, Document>, owners: map<Id, Id>)

  const SUMMARY_MAX := 1500

  function Summary(parents: seq<Parent>): string {
    if parents == [] then "" else
      var head := Stripped(parents[0].content);
      if |head| <= SUMMARY_MAX then head else head[..SUMMARY_MAX]
  }

  function DocumentRow(doc: string, d: Document, owner: Id, parents: seq<Parent>): Memory {
    Memory(owner, doc, None, Some(d.conversation), d.filename,
           if Summary(parents) == "" then d.filename else Summary(parents), Whole, 1)
  }

  function PassageRow(doc: string, d: Document, owner: Id, whole: Id, parent: Parent): Memory {
    Memory(owner, doc, Some(whole), Some(d.conversation), d.filename, parent.content, Passage(parent.chunk, parent.index), 1)
  }

  /** The document row's content starts the first parent's text at its first non-space, for at most 1500 characters;
      the file name stands in when that text is blank or there is no parent. */
  lemma DocumentRowContent(doc: string, d: Document, owner: Id, parents: seq<Parent>)
    ensures var content := DocumentRow(doc, d, owner, parents).content;
            if parents == [] || forall i :: 0 <= i < |parents[0].content| ==> Space(parents[0].content[i])
            then content == d.filename
            else exists trimmed, lo, hi :: IsTrimmed(parents[0].content, trimmed, lo, hi)
                   && 0 < |content| <= SUMMARY_MAX && content <= trimmed
                   && (|content| < SUMMARY_MAX ==> content == trimmed)
  {
    if parents != [] {
      BlankIff(parents[0].content);
      StrippedIsTrimmed(parents[0].content);
    }
  }

  /** One owner's rows of one document. */
  function RowsOf(memories: map<Id, Memory>, doc: string, owner: Id): set<Id> {
    set id | id in memories && memories[id].sourceRef == doc && memories[id].owner == owner
  }

  function Promised(intents: map<Key, Id>, keys: set<Key>, tenant: Id): map<Key, Id> {
    map k | k in intents.Keys + keys :: if k in intents then intents[k] else tenant
  }

  /** The revision a delete intent carries; the asynchronous face never lets it be 0. */
  function DeleteRevision(m: Memory, floor: bool): nat { if floor && m.revision == 0 then 1 else m.revision }

  function DeleteKeys(memories: map<Id, Memory>, ids: set<Id>, floor: bool, generation: string): (keys: set<Key>)
    requires ids <= memories.Keys
    ensures forall k :: k in keys <==>
              k.entity in ids && k == Key(k.entity, DeleteRevision(memories[k.entity], floor), Delete, generation)
  {
    set id | id in ids :: Key(id, DeleteRevision(memories[id], floor), Delete, generation)
  }

  function UpsertKeys(ids: seq<Id>, generation: string): (keys: set<Key>)
    ensures forall k :: k in keys <==> k.entity in ids && k == Key(k.entity, 1, Upsert, generation)
  {
    set id | id in ids :: Key(id, 1, Upsert, generation)
  }

  function RowAt(doc: string, d: Document, owner: Id, parents: seq<Parent>, ids: seq<Id>, i: nat): Memory
    requires |ids| == 1 + |parents| && i < |ids|
  {
    if i == 0 then DocumentRow(doc, d, owner, parents) else PassageRow(doc, d, owner, ids[0], parents[i - 1])
  }

  /** The first n new rows added: the document row under ids[0], the passage of parents[i] under ids[i + 1]. */
  function WithRows(memories: map<Id, Memory>, doc: string, d: Document, owner: Id, parents: seq<Parent>, ids: seq<Id>,
                    n: nat): map<Id, Memory>
    requires |ids| == 1 + |parents| && n <= |ids|
  {
    if n == 0 then memories
    else WithRows(memories, doc, d, owner, parents, ids, n - 1)[ids[n - 1] := RowAt(doc, d, owner, parents, ids, n - 1)]
  }

  datatype Decision = Proceed(document: Document) | Skip | Refuse

  /** A forgotten, missing or ownerless document is skipped; another owner's is refused. */
  function Decide(s: State, library: Library, doc: string, owner: Id): Decision {
    if (owner, doc) in s.suppressed then Skip
    else if doc !in library.documents then Skip
    else
      var d := library.documents[doc];
      if d.conversation !in library.owners then Skip
      else if library.owners[d.conversation] != owner then Refuse
      else Proceed(d)
  }

  /** The user whose conversation the document is in, if both are there. */
  function Holder(library: Library, doc: string): Option<Id> {
    if doc in library.documents && library.documents[doc].conversation in library.owners
    then Some(library.owners[library.documents[doc].conversation]) else None
  }

  /** Nothing happens to a forgotten document or one without an owner; else its owner, and nobody else, is served. */
  lemma DecisionIff(s: State, library: Library, doc: string, owner: Id)
    ensures var forgotten := (owner, doc) in s.suppressed;
            && (Decide(s, library, doc, owner).Skip? <==> forgotten || Holder(library, doc) == None)
            && (Decide(s, library, doc, owner).Proceed? <==> !forgotten && Holder(library, doc) == Some(owner))
            && (Decide(s, library, doc, owner).Refuse? <==>
                  !forgotten && Holder(library, doc).Some? && Holder(library, doc) != Some(owner))
            && (Decide(s, library, doc, owner).Proceed? ==>
                  Decide(s, library, doc, owner).document == library.documents[doc])
  {
  }

  function Projected(s: State, library: Library, doc: string, parents: seq<Parent>, owner: Id, ids: seq<Id>,
                     generation: string): State
    requires |ids| == 1 + |parents|
  {
    match Decide(s, library, doc, owner)
    case Skip => s
    case Refuse => s
    case Proceed(d) =>
      var gone := RowsOf(s.memories, doc, owner);
      var deletes := Promised(s.intents, DeleteKeys(s.memories, gone, false, generation), owner);
      State(WithRows(s.memories - gone, doc, d, owner, parents, ids, |ids|),
            Promised(deletes, UpsertKeys(ids, generation), owner), s.suppressed)
  }

  function Erased(s: State, doc: string, owner: Id, generation: string): State {
    var gone := RowsOf(s.memories, doc, owner);
    s.(memories := s.memories - gone, intents := Promised(s.intents, DeleteKeys(s.memories, gone, true, generation), owner))
  }

  datatype Result = Built(whole: Id, passages: seq<Id>, removed: set<Id>) | Skipped | Refused

  class Tables {
    var memories: map<Id, Memory>
    var intents: map<Key, Id>
    var suppressed: set<(Id, string)>

    function Now(): State
      reads this
    {
      State(memories, intents, suppressed)
    }

    /** INSERT ... ON CONFLICT DO NOTHING on the intent's unique key. */
    method Enqueue(key: Key, tenant: Id)
      modifies `intents
      ensures intents == Promised(old(intents), {key}, tenant)
    {
      if key !in intents { intents := intents[key := tenant]; }
    }

    method DeleteRows(doc: string, owner: Id, floor: bool, generation: string) returns (gone: set<Id>)
      modifies `memories, `intents
      ensures gone == RowsOf(old(memories), doc, owner) && memories == old(memories) - gone
      ensures intents == Promised(old(intents), DeleteKeys(old(memories), gone, floor, generation), owner)
    {
      hide Promised, DeleteKeys;
      gone := RowsOf(memories, doc, owner);
      ghost var before, done: set<Id> := memories, {};
      var todo := gone;
      NoKeys(intents, before, floor, generation, owner);
      while todo != {}
        invariant done + todo == gone && done !! todo && gone <= before.Keys && memories == before - done
        invariant intents == Promised(old(intents), DeleteKeys(before, done, floor, generation), owner)
      {
        var id :| id in todo;
        OneMoreKey(old(intents), before, done, id, floor, generation, owner);
        Enqueue(Key(id, DeleteRevision(memories[id], floor), Delete, generation), owner);
        RemoveOne(before, done, id);
        memories := memories - {id};
        todo, done := todo - {id}, done + {id};
      }
      assert done == gone;
    }

    /** `ids` are the new rows' generated ids, in order. */
    method BuildDocumentMemories(library: Library, doc: string, parents: seq<Parent>, owner: Id, ids: seq<Id>,
                                 generation: string)
      returns (result: Result)
      requires |ids| == 1 + |parents|
      modifies this
      ensures Now() == Projected(old(Now()), library, doc, parents, owner, ids, generation)
      ensures result.Skipped? <==> (owner, doc) in old(suppressed) || Holder(library, doc) == None
      ensures result.Refused? <==>
                (owner, doc) !in old(suppressed) && Holder(library, doc).Some? && Holder(library, doc) != Some(owner)
      ensures result.Built? <==> (owner, doc) !in old(suppressed) && Holder(library, doc) == Some(owner)
      ensures result.Built? ==> result == Built(ids[0], ids[1..], RowsOf(old(memories), doc, owner))
      ensures !result.Built? ==> Now() == old(Now())
    {
      if (owner, doc) in suppressed || doc !in library.documents { return Skipped; }
      var d := library.documents[doc];
      if d.conversation !in library.owners { return Skipped; }
      if library.owners[d.conversation] != owner { return Refused; }
      var gone := DeleteRows(doc, owner, false, generation);
      ghost var kept, deletes := memories, intents;
      hide Promised, DeleteKeys, UpsertKeys, RowsOf;
      memories := memories[ids[0] := DocumentRow(doc, d, owner, parents)];
      assert memories == WithRows(kept, doc, d, owner, parents, ids, 1);
      for i := 0 to |parents|
        invariant memories == WithRows(kept, doc, d, owner, parents, ids, i + 1)
        invariant intents == deletes && suppressed == old(suppressed)
      {
        memories := memories[ids[i + 1] := PassageRow(doc, d, owner, ids[0], parents[i])];
      }
      assert ids[..0] == [];
      NoKeys(deletes, kept, false, generation, owner);
      for i := 0 to |ids|
        invariant intents == Promised(deletes, UpsertKeys(ids[..i], generation), owner)
        invariant memories == WithRows(kept, doc, d, owner, parents, ids, |ids|) && suppressed == old(suppressed)
      {
        Enqueue(Key(ids[i], 1, Upsert, generation), owner);
        OneMoreUpsert(deletes, ids, i, generation, owner);
      }
      assert ids[..|ids|] == ids;
      return Built(ids[0], ids[1..], gone);
    }

    method DeleteDocumentMemories(doc: string, owner: Id, generation: string) returns (gone: set<Id>)
      modifies this
      ensures Now() == Erased(old(Now()), doc, owner, generation) && gone == RowsOf(old(memories), doc, owner)
    {
      gone := DeleteRows(doc, owner, true, generation);
    }

    method SuppressSource(owner: Id, doc: string)
      modifies `suppressed
      ensures suppressed == old(suppressed) + {(owner, doc)}
    {
      if (owner, doc) !in suppressed { suppressed := suppressed + {(owner, doc)}; }
    }
  }

  lemma NoKeys(intents: map<Key, Id>, memories: map<Id, Memory>, floor: bool, generation: string, tenant: Id)
    ensures intents == Promised(intents, DeleteKeys(memories, {}, floor, generation), tenant)
    ensures intents == Promised(intents, UpsertKeys([], generation), tenant)
  {
    assert DeleteKeys(memories, {}, floor, generation) == {};
    assert UpsertKeys([], generation) == {};
  }

  lemma RemoveOne(memories: map<Id, Memory>, done: set<Id>, id: Id)
    ensures memories - done - {id} == memories - (done + {id})
  {
  }

  lemma OneMoreUpsert(intents: map<Key, Id>, ids: seq<Id>, i: nat, generation: string, tenant: Id)
    requires i < |ids|
    ensures Promised(Promised(intents, UpsertKeys(ids[..i], generation), tenant), {Key(ids[i], 1, Upsert, generation)}, tenant)
            == Promised(intents, UpsertKeys(ids[..i + 1], generation), tenant)
  {
    var key := Key(ids[i], 1, Upsert, generation);
    assert ids[..i + 1] == ids[..i] + [ids[i]];
    assert UpsertKeys(ids[..i + 1], generation) == UpsertKeys(ids[..i], generation) + {key};
    PromisedTwice(intents, UpsertKeys(ids[..i], generation), {key}, tenant);
  }

  lemma PromisedTwice(intents: map<Key, Id>, a: set<Key>, b: set<Key>, tenant: Id)
    ensures Promised(Promised(intents, a, tenant), b, tenant) == Promised(intents, a + b, tenant)
  {
  }

  lemma OneMoreKey(intents: map<Key, Id>, memories: map<Id, Memory>, done: set<Id>, id: Id, floor: bool,
                   generation: string, tenant: Id)
    requires done <= memories.Keys && id in memories
    ensures var key := Key(id, DeleteRevision(memories[id], floor), Delete, generation);
            Promised(Promised(intents, DeleteKeys(memories, done, floor, generation), tenant), {key}, tenant)
            == Promised(intents, DeleteKeys(memories, done + {id}, floor, generation), tenant)
  {
    var key := Key(id, DeleteRevision(memories[id], floor), Delete, generation);
    assert DeleteKeys(memories, done + {id}, floor, generation) == DeleteKeys(memories, done, floor, generation) + {key};
    hide DeleteKeys;
    PromisedTwice(intents, DeleteKeys(memories, done, floor, generation), {key}, tenant);
  }

  // ── one projection ─────────────────────────────────────────────────────────

  ghost predicate Distinct(ids: seq<Id>) { forall i, j :: 0 <= i < j < |ids| ==> ids[i] != ids[j] }

  /** Generated ids name no row and no intent yet. */
  ghost predicate Unused(s: State, ids: seq<Id>) {
    && Distinct(ids)
    && (forall i :: 0 <= i < |ids| ==> ids[i] !in s.memories)
    && (forall k :: k in s.intents ==> k.entity !in ids)
  }

  lemma {:induction false} WithRowsHas(memories: map<Id, Memory>, doc: string, d: Document, owner: Id,
                                       parents: seq<Parent>, ids: seq<Id>, n: nat)
    requires |ids| == 1 + |parents| && n <= |ids| && Distinct(ids)
    ensures WithRows(memories, doc, d, owner, parents, ids, n).Keys == memories.Keys + Elements(ids[..n])
    ensures forall i :: 0 <= i < n ==>
              WithRows(memories, doc, d, owner, parents, ids, n)[ids[i]] == RowAt(doc, d, owner, parents, ids, i)
    ensures forall id :: id in memories && id !in ids ==>
              WithRows(memories, doc, d, owner, parents, ids, n)[id] == memories[id]
  {
    hide RowAt;
    if n > 0 {
      WithRowsHas(memories, doc, d, owner, parents, ids, n - 1);
      var shorter := WithRows(memories, doc, d, owner, parents, ids, n - 1);
      var longer := shorter[ids[n - 1] := RowAt(doc, d, owner, parents, ids, n - 1)];
      assert WithRows(memories, doc, d, owner, parents, ids, n) == longer;
      hide WithRows, Elements;
      ElementsMore(ids, n);
      forall i | 0 <= i < n ensures longer[ids[i]] == RowAt(doc, d, owner, parents, ids, i) {
        if i < n - 1 { assert ids[i] != ids[n - 1]; }
      }
    }
  }

  lemma ElementsMore(ids: seq<Id>, n: nat)
    requires 0 < n <= |ids|
    ensures Elements(ids[..n]) == Elements(ids[..n - 1]) + {ids[n - 1]}
    ensures forall i :: 0 <= i < n ==> ids[i] in Elements(ids[..n])
  {
    assert ids[..n] == ids[..n - 1] + [ids[n - 1]];
    assert forall i :: 0 <= i < n ==> ids[..n][i] == ids[i];
  }

  predicate IsPassage(memories: map<Id, Memory>, id: Id, whole: Id, parent: Parent) {
    && id in memories && memories[id].place == Passage(parent.chunk, parent.index)
    && memories[id].content == parent.content && memories[id].parent == Some(whole)
  }

  /** The rows under `ids` are the whole projection of these parents: one document row, then a passage of each
      parent, in order. */
  ghost predicate Shows(s: State, doc: string, owner: Id, parents: seq<Parent>, ids: seq<Id>) {
    && |ids| == 1 + |parents| && Distinct(ids) && RowsOf(s.memories, doc, owner) == Elements(ids)
    && (forall i :: 0 <= i < |ids| ==> ids[i] in s.memories && s.memories[ids[i]].revision == 1)
    && s.memories[ids[0]].place == Whole && s.memories[ids[0]].parent == None
    && (forall i :: 0 <= i < |parents| ==> IsPassage(s.memories, ids[i + 1], ids[0], parents[i]))
  }

  /** Exactly the owner's rows are replaced, whoever else uses the same reference. */
  ghost predicate RowsReplaced(s: State, after: State, doc: string, parents: seq<Parent>, owner: Id, ids: seq<Id>) {
    var gone := RowsOf(s.memories, doc, owner);
    && Shows(after, doc, owner, parents, ids) && |RowsOf(after.memories, doc, owner)| == 1 + |parents|
    && after.memories.Keys == s.memories.Keys - gone + Elements(ids)
    && (forall id :: id in s.memories && id !in gone ==> after.memories[id] == s.memories[id])
    && after.suppressed == s.suppressed
  }

  /** One delete per removed row, at its revision, and one upsert per new one; nothing else is promised or taken
      back. */
  ghost predicate IntentsAdded(s: State, after: State, gone: set<Id>, ids: seq<Id>, generation: string)
    requires gone <= s.memories.Keys
  {
    && s.intents.Keys <= after.intents.Keys
    && (forall k :: k in after.intents && k !in s.intents ==>
          (k.entity in gone && k == Key(k.entity, s.memories[k.entity].revision, Delete, generation))
          || (k.entity in ids && k == Key(k.entity, 1, Upsert, generation)))
    && (forall id :: id in gone ==> Key(id, s.memories[id].revision, Delete, generation) in after.intents)
    && (forall id :: id in ids ==> AllKeysOf(after, id) == {Key(id, 1, Upsert, generation)})
  }

  lemma ProjectionReplaces(s: State, library: Library, doc: string, parents: seq<Parent>, owner: Id, ids: seq<Id>,
                           generation: string)
    requires |ids| == 1 + |parents| && Unused(s, ids) && Decide(s, library, doc, owner).Proceed?
    ensures var after := Projected(s, library, doc, parents, owner, ids, generation);
            && RowsReplaced(s, after, doc, parents, owner, ids)
            && IntentsAdded(s, after, RowsOf(s.memories, doc, owner), ids, generation)
  {
    hide RowsReplaced, IntentsAdded, Promised, WithRows, Unused;
    var after := Projected(s, library, doc, parents, owner, ids, generation);
    var d := Decide(s, library, doc, owner).document;
    NewRows(s, after, doc, d, parents, owner, ids);
    NewIntents(s, after, RowsOf(s.memories, doc, owner), owner, ids, generation);
  }

  lemma NewRows(s: State, after: State, doc: string, d: Document, parents: seq<Parent>, owner: Id, ids: seq<Id>)
    requires |ids| == 1 + |parents| && Unused(s, ids) && after.suppressed == s.suppressed
    requires after.memories == WithRows(s.memories - RowsOf(s.memories, doc, owner), doc, d, owner, parents, ids, |ids|)
    ensures RowsReplaced(s, after, doc, parents, owner, ids)
  {
    hide WithRows, Shows, RowAt, RowsOf, Elements;
    var gone := RowsOf(s.memories, doc, owner);
    WithRowsHas(s.memories - gone, doc, d, owner, parents, ids, |ids|);
    assert ids[..|ids|] == ids;
    ElementsMore(ids, |ids|);
    RowsOfNew(s.memories, after.memories, doc, d, parents, owner, ids);
    ShowsNew(after, doc, d, owner, parents, ids);
    DistinctSize(ids);
    NotGone(s.memories, gone, ids);
  }

  lemma NotGone(memories: map<Id, Memory>, gone: set<Id>, ids: seq<Id>)
    requires forall i :: 0 <= i < |ids| ==> ids[i] !in memories
    ensures forall id :: id in memories && id !in gone ==> id in memories - gone && id !in ids
    ensures (memories - gone).Keys == memories.Keys - gone
  {
  }

  lemma RowsOfNew(before: map<Id, Memory>, after: map<Id, Memory>, doc: string, d: Document, parents: seq<Parent>,
                  owner: Id, ids: seq<Id>)
    requires |ids| == 1 + |parents|
    requires after.Keys == before.Keys - RowsOf(before, doc, owner) + Elements(ids)
    requires forall i :: 0 <= i < |ids| ==> after[ids[i]] == RowAt(doc, d, owner, parents, ids, i)
    requires forall id :: id in before && id !in RowsOf(before, doc, owner) && id !in ids ==> after[id] == before[id]
    ensures RowsOf(after, doc, owner) == Elements(ids)
  {
    forall id ensures id in RowsOf(after, doc, owner) <==> id in ids {
      if id in ids { var i :| 0 <= i < |ids| && ids[i] == id; assert after[ids[i]] == RowAt(doc, d, owner, parents, ids, i); }
    }
  }

  lemma NewIntents(s: State, after: State, gone: set<Id>, owner: Id, ids: seq<Id>, generation: string)
    requires gone <= s.memories.Keys && Unused(s, ids)
    requires after.intents == Promised(Promised(s.intents, DeleteKeys(s.memories, gone, false, generation), owner),
                                       UpsertKeys(ids, generation), owner)
    ensures IntentsAdded(s, after, gone, ids, generation)
  {
    hide RowsOf, WithRows;
    var deletes, upserts := DeleteKeys(s.memories, gone, false, generation), UpsertKeys(ids, generation);
    PromisedTwice(s.intents, deletes, upserts, owner);
    assert after.intents.Keys == s.intents.Keys + deletes + upserts;
    hide Promised, DeleteKeys, UpsertKeys;
    forall id | id in gone ensures Key(id, s.memories[id].revision, Delete, generation) in after.intents {
      assert Key(id, s.memories[id].revision, Delete, generation) in deletes;
    }
    forall id | id in ids ensures AllKeysOf(after, id) == {Key(id, 1, Upsert, generation)} {
      assert id !in gone;
      assert Key(id, 1, Upsert, generation) in upserts;
    }
  }

  ghost function AllKeysOf(s: State, id: Id): set<Key> { set k | k in s.intents && k.entity == id }

  lemma ShowsNew(after: State, doc: string, d: Document, owner: Id, parents: seq<Parent>, ids: seq<Id>)
    requires |ids| == 1 + |parents| && Distinct(ids) && RowsOf(after.memories, doc, owner) == Elements(ids)
    requires forall i :: 0 <= i < |ids| ==>
               ids[i] in after.memories && after.memories[ids[i]] == RowAt(doc, d, owner, parents, ids, i)
    ensures Shows(after, doc, owner, parents, ids)
  {
    assert after.memories[ids[0]] == RowAt(doc, d, owner, parents, ids, 0);
    forall i | 0 <= i < |parents| ensures IsPassage(after.memories, ids[i + 1], ids[0], parents[i]) {
      assert after.memories[ids[i + 1]] == RowAt(doc, d, owner, parents, ids, i + 1);
    }
  }

  lemma {:induction false} DistinctSize(ids: seq<Id>)
    requires Distinct(ids)
    ensures |Elements(ids)| == |ids|
  {
    if ids != [] {
      DistinctSize(ids[..|ids| - 1]);
      assert Elements(ids) == Elements(ids[..|ids| - 1]) + {ids[|ids| - 1]};
    }
  }

  /** The rows a projection makes, field by field, for the owner and the conversation of the document; the removed rows'
      ids and theirs get intents under the owner, and no intent that was there changes. */
  lemma ProjectionWrites(s: State, library: Library, doc: string, parents: seq<Parent>, owner: Id, ids: seq<Id>,
                         generation: string, k: Key)
    requires |ids| == 1 + |parents| && Unused(s, ids) && Decide(s, library, doc, owner).Proceed?
    ensures var after := Projected(s, library, doc, parents, owner, ids, generation);
            var d := library.documents[doc];
            && ids[0] in after.memories
            && after.memories[ids[0]]
               == Memory(owner, doc, None, Some(d.conversation), d.filename, after.memories[ids[0]].content, Whole, 1)
            && after.memories[ids[0]].content == DocumentRow(doc, d, owner, parents).content
            && (forall i :: 0 <= i < |parents| ==>
                  && ids[i + 1] in after.memories
                  && after.memories[ids[i + 1]]
                     == Memory(owner, doc, Some(ids[0]), Some(d.conversation), d.filename, parents[i].content,
                               Passage(parents[i].chunk, parents[i].index), 1))
            && (k in s.intents ==> k in after.intents && after.intents[k] == s.intents[k])
            && (k in after.intents && k !in s.intents ==> after.intents[k] == owner)
  {
    hide Promised, Unused;
    var after := Projected(s, library, doc, parents, owner, ids, generation);
    var d := library.documents[doc];
    var gone := RowsOf(s.memories, doc, owner);
    assert Distinct(ids) by { UnusedDistinct(s, ids); }
    WithRowsHas(s.memories - gone, doc, d, owner, parents, ids, |ids|);
    assert ids[..|ids|] == ids;
    forall i | 0 <= i < |ids| ensures ids[i] in after.memories && after.memories[ids[i]] == RowAt(doc, d, owner, parents, ids, i) {
      assert ids[i] in Elements(ids);
    }
    forall i | 0 <= i < |parents|
      ensures after.memories[ids[i + 1]] == PassageRow(doc, d, owner, ids[0], parents[i])
    {
      assert after.memories[ids[i + 1]] == RowAt(doc, d, owner, parents, ids, i + 1);
    }
    PromisesOf(s.intents, DeleteKeys(s.memories, gone, false, generation), UpsertKeys(ids, generation), owner, k);
  }

  lemma UnusedDistinct(s: State, ids: seq<Id>)
    requires Unused(s, ids)
    ensures Distinct(ids)
  {
  }

  lemma PromisesOf(intents: map<Key, Id>, a: set<Key>, b: set<Key>, tenant: Id, k: Key)
    ensures var after := Promised(Promised(intents, a, tenant), b, tenant);
            && (k in intents ==> k in after && after[k] == intents[k])
            && (k in after && k !in intents ==> (k in a || k in b) && after[k] == tenant)
  {
  }

  /** An erasure takes the owner's rows of the document and leaves for each a delete intent at its revision, at 1 if that
      is 0, under the owner; nothing else changes. */
  lemma ErasureWrites(s: State, doc: string, owner: Id, generation: string, id: Id, k: Key)
    ensures var after := Erased(s, doc, owner, generation);
            var gone := id in s.memories && s.memories[id].sourceRef == doc && s.memories[id].owner == owner;
            && after.suppressed == s.suppressed
            && (id in after.memories <==> id in s.memories && !gone)
            && (id in after.memories ==> after.memories[id] == s.memories[id])
            && (gone ==> Key(id, if s.memories[id].revision == 0 then 1 else s.memories[id].revision, Delete, generation)
                           in after.intents)
            && (k in s.intents ==> k in after.intents && after.intents[k] == s.intents[k])
            && (k in after.intents && k !in s.intents ==>
                  && after.intents[k] == owner && k.operation == Delete && k.revision > 0 && k.generation == generation
                  && k.entity in s.memories && s.memories[k.entity].sourceRef == doc && s.memories[k.entity].owner == owner)
  {
    var rows := RowsOf(s.memories, doc, owner);
    if id in rows {
      assert Key(id, DeleteRevision(s.memories[id], true), Delete, generation) in DeleteKeys(s.memories, rows, true, generation);
    }
  }

  // ── runs ───────────────────────────────────────────────────────────────────

  datatype Action =
    | Project(doc: string, parents: seq<Parent>, owner: Id, ids: seq<Id>, generation: string)
    | Erase(doc: string, owner: Id, generation: string)
    | Forget(doc: string, owner: Id)

  function Next(s: State, library: Library, a: Action): State
    requires a.Project? ==> |a.ids| == 1 + |a.parents|
  {
    match a
    case Project(doc, parents, owner, ids, generation) => Projected(s, library, doc, parents, owner, ids, generation)
    case Erase(doc, owner, generation) => Erased(s, doc, owner, generation)
    case Forget(doc, owner) => s.(suppressed := s.suppressed + {(owner, doc)})
  }

  predicate WellSized(acts: seq<Action>) {
    forall i :: 0 <= i < |acts| && acts[i].Project? ==> |acts[i].ids| == 1 + |acts[i].parents|
  }

  function Run(s: State, library: Library, acts: seq<Action>): State
    requires WellSized(acts)
  {
    if acts == [] then s else Next(Run(s, library, acts[..|acts| - 1]), library, acts[|acts| - 1])
  }

  /** Every projection of the run generates unused ids. */
  ghost predicate Valid(s: State, library: Library, acts: seq<Action>) {
    WellSized(acts) && (acts == [] ||
      (Valid(s, library, acts[..|acts| - 1])
       && (acts[|acts| - 1].Project? ==> Unused(Run(s, library, acts[..|acts| - 1]), acts[|acts| - 1].ids))))
  }

  /** What an identity's rows are: those it started with, none, or a document row with one passage per parent. */
  datatype Showing = AtStart | Bare | Passages(parents: seq<Parent>)

  /** What an identity should show after the run: its last accepted projection or erasure decides. */
  ghost function Shown(s: State, library: Library, acts: seq<Action>, doc: string, owner: Id): Showing
    requires WellSized(acts)
  {
    if acts == [] then AtStart else
      var shorter, last := acts[..|acts| - 1], acts[|acts| - 1];
      if last.doc != doc || last.owner != owner || last.Forget? then Shown(s, library, shorter, doc, owner)
      else if last.Erase? then Bare
      else if Decide(Run(s, library, shorter), library, doc, owner).Proceed? then Passages(last.parents)
      else Shown(s, library, shorter, doc, owner)
  }

  ghost predicate SameRows(s: State, t: State, doc: string, owner: Id) {
    && RowsOf(t.memories, doc, owner) == RowsOf(s.memories, doc, owner)
    && forall id :: id in RowsOf(s.memories, doc, owner) ==> t.memories[id] == s.memories[id]
  }

  ghost predicate IsShown(start: State, s: State, doc: string, owner: Id, shown: Showing) {
    match shown
    case AtStart => SameRows(start, s, doc, owner)
    case Bare => RowsOf(s.memories, doc, owner) == {}
    case Passages(parents) => exists ids :: Shows(s, doc, owner, parents, ids)
  }

  /** A step leaves another identity's rows as they are. */
  lemma OthersUntouched(s: State, library: Library, a: Action, doc: string, owner: Id)
    requires a.Project? ==> |a.ids| == 1 + |a.parents| && Unused(s, a.ids)
    requires a.doc != doc || a.owner != owner || a.Forget? || (a.Project? && !Decide(s, library, doc, owner).Proceed?)
    ensures SameRows(s, Next(s, library, a), doc, owner)
  {
    hide Shows, Projected, IntentsAdded, Unused, WithRows, Promised;
    if a.Project? {
      if Decide(s, library, a.doc, a.owner).Proceed? {
        var after := Next(s, library, a);
        ProjectionReplaces(s, library, a.doc, a.parents, a.owner, a.ids, a.generation);
        NewRowsAreOwners(after, a.doc, a.owner, a.parents, a.ids);
      } else {
        NothingProjected(s, library, a);
      }
    }
  }

  lemma NothingProjected(s: State, library: Library, a: Action)
    requires a.Project? && |a.ids| == 1 + |a.parents| && !Decide(s, library, a.doc, a.owner).Proceed?
    ensures Next(s, library, a) == s
  {
  }

  lemma NewRowsAreOwners(after: State, doc: string, owner: Id, parents: seq<Parent>, ids: seq<Id>)
    requires Shows(after, doc, owner, parents, ids)
    ensures forall id :: id in ids ==>
              id in after.memories && after.memories[id].sourceRef == doc && after.memories[id].owner == owner
  {
    forall id | id in ids ensures id in RowsOf(after.memories, doc, owner) { assert id in Elements(ids); }
  }

  lemma KeepsShowing(start: State, s: State, after: State, doc: string, owner: Id, shown: Showing)
    requires IsShown(start, s, doc, owner, shown) && SameRows(s, after, doc, owner)
    ensures IsShown(start, after, doc, owner, shown)
  {
    if shown.Passages? {
      var ids :| Shows(s, doc, owner, shown.parents, ids);
      assert forall i :: 0 <= i < |ids| ==> ids[i] in Elements(ids);
      forall i | 0 <= i < |shown.parents| ensures IsPassage(after.memories, ids[i + 1], ids[0], shown.parents[i]) {
        assert IsPassage(s.memories, ids[i + 1], ids[0], shown.parents[i]);
      }
      assert Shows(after, doc, owner, shown.parents, ids);
    }
  }

  /** Over any run an identity's rows are exactly its last accepted projection, replaced whole and never duplicated,
      or none after an erasure, or untouched when neither happened. */
  lemma {:induction false} LastProjectionShows(s: State, library: Library, acts: seq<Action>, doc: string, owner: Id)
    requires Valid(s, library, acts)
    ensures IsShown(s, Run(s, library, acts), doc, owner, Shown(s, library, acts, doc, owner))
  {
    hide Shows, Projected, Decide, Unused, RowsOf;
    if acts != [] {
      var shorter, last := acts[..|acts| - 1], acts[|acts| - 1];
      LastProjectionShows(s, library, shorter, doc, owner);
      StepShows(s, library, shorter, last, doc, owner);
    }
  }

  lemma StepShows(s: State, library: Library, shorter: seq<Action>, last: Action, doc: string, owner: Id)
    requires WellSized(shorter + [last])
    requires WellSized(shorter)
             && IsShown(s, Run(s, library, shorter), doc, owner, Shown(s, library, shorter, doc, owner))
    requires last.Project? ==> |last.ids| == 1 + |last.parents| && Unused(Run(s, library, shorter), last.ids)
    ensures IsShown(s, Next(Run(s, library, shorter), library, last), doc, owner, Shown(s, library, shorter + [last], doc, owner))
  {
    hide Shows, Decide, Unused;
    assert (shorter + [last])[..|shorter|] == shorter;
    var before := Run(s, library, shorter);
    if last.doc != doc || last.owner != owner || last.Forget? || (last.Project? && !Decide(before, library, doc, owner).Proceed?) {
      OthersUntouched(before, library, last, doc, owner);
      KeepsShowing(s, before, Next(before, library, last), doc, owner, Shown(s, library, shorter, doc, owner));
    } else if last.Project? {
      ProjectionReplaces(before, library, doc, last.parents, owner, last.ids, last.generation);
    }
  }

  /** Over any run a user gains rows of a document only if it is in a conversation of that user, and not while it is
      forgotten. */
  lemma {:induction false} GainsAreOwned(s: State, library: Library, acts: seq<Action>, doc: string, owner: Id, id: Id)
    requires Valid(s, library, acts)
    requires id in RowsOf(Run(s, library, acts).memories, doc, owner) && id !in RowsOf(s.memories, doc, owner)
    ensures doc in library.documents && library.documents[doc].conversation in library.owners
    ensures library.owners[library.documents[doc].conversation] == owner && (owner, doc) !in s.suppressed
  {
    hide Projected, Unused, RowsOf, Decide, Valid;
    if (owner, doc) in s.suppressed {
      ForgottenGainsNothing(s, library, acts, doc, owner);
    }
    if acts != [] {
      var shorter, last := acts[..|acts| - 1], acts[|acts| - 1];
      ValidShorter(s, library, acts);
      var before := Run(s, library, shorter);
      if id in RowsOf(before.memories, doc, owner) {
        GainsAreOwned(s, library, shorter, doc, owner, id);
      } else {
        GainIsOwned(s, library, acts, doc, owner, id);
      }
    }
  }

  lemma ValidShorter(s: State, library: Library, acts: seq<Action>)
    requires Valid(s, library, acts) && acts != []
    ensures WellSized(acts) && WellSized(acts[..|acts| - 1]) && Valid(s, library, acts[..|acts| - 1])
    ensures var last := acts[|acts| - 1];
            last.Project? ==> |last.ids| == 1 + |last.parents| && Unused(Run(s, library, acts[..|acts| - 1]), last.ids)
  {
  }

  lemma GainIsOwned(s: State, library: Library, acts: seq<Action>, doc: string, owner: Id, id: Id)
    requires Valid(s, library, acts) && acts != []
    requires id in RowsOf(Run(s, library, acts).memories, doc, owner)
    requires id !in RowsOf(Run(s, library, acts[..|acts| - 1]).memories, doc, owner)
    ensures Holder(library, doc) == Some(owner)
  {
    hide Shows, Projected, Decide, Unused;
    var before, last := Run(s, library, acts[..|acts| - 1]), acts[|acts| - 1];
    ValidShorter(s, library, acts);
    DecisionIff(before, library, doc, owner);
    if last.doc != doc || last.owner != owner || last.Forget? || (last.Project? && !Decide(before, library, doc, owner).Proceed?) {
      OthersUntouched(before, library, last, doc, owner);
    }
  }

  // ── promises over runs ─────────────────────────────────────────────────────

  /** Relative to the start: every row gone has its delete intent, every row added its upsert intent, no live row a
      delete intent that was not there. */
  ghost predicate Promises(s: State, now: State) {
    && s.intents.Keys <= now.intents.Keys
    && (forall id :: id in s.memories && id !in now.memories ==>
          exists k :: k in now.intents && k.entity == id && k.operation == Delete)
    && (forall id :: id in now.memories && id !in s.memories ==>
          exists k :: k in now.intents && k == Key(id, 1, Upsert, k.generation))
    && (forall k :: k in now.intents && k !in s.intents && k.operation == Delete ==> k.entity !in now.memories)
    && (forall k :: k in now.intents && k !in s.intents && k.operation == Upsert && k.entity !in now.memories ==>
          exists d :: d in now.intents && d.entity == k.entity && d.operation == Delete)
    && (forall id :: id in now.memories && id !in s.memories ==> now.memories[id].revision == 1)
  }

  lemma EraseKeepsPromises(s: State, now: State, doc: string, owner: Id, generation: string)
    requires Promises(s, now)
    ensures Promises(s, Erased(now, doc, owner, generation))
  {
    var after := Erased(now, doc, owner, generation);
    var gone := RowsOf(now.memories, doc, owner);
    forall id | id in gone ensures exists k :: k in after.intents && k.entity == id && k.operation == Delete {
      assert Key(id, DeleteRevision(now.memories[id], true), Delete, generation) in after.intents;
    }
    MorePromised(s, now, after, gone, {});
  }

  lemma ProjectKeepsPromises(s: State, now: State, library: Library, a: Action)
    requires Promises(s, now) && a.Project? && |a.ids| == 1 + |a.parents| && Unused(now, a.ids)
    ensures Promises(s, Next(now, library, a))
  {
    hide Promises, Shows, Projected, WithRows, Promised, Decide;
    if !Decide(now, library, a.doc, a.owner).Proceed? {
      NothingProjected(now, library, a);
    } else {
      var after := Next(now, library, a);
      var gone := RowsOf(now.memories, a.doc, a.owner);
      ProjectionReplaces(now, library, a.doc, a.parents, a.owner, a.ids, a.generation);
      ShowsRevisions(after, a.doc, a.owner, a.parents, a.ids);
      forall id | id in gone ensures exists k :: k in after.intents && k.entity == id && k.operation == Delete {
        assert Key(id, now.memories[id].revision, Delete, a.generation) in after.intents;
      }
      forall id | id in a.ids
        ensures Key(id, 1, Upsert, a.generation) in after.intents
        ensures forall k :: k in after.intents && k.entity == id ==> k.operation == Upsert
      {
        assert Key(id, 1, Upsert, a.generation) in AllKeysOf(after, id);
        forall k | k in after.intents && k.entity == id ensures k.operation == Upsert { assert k in AllKeysOf(after, id); }
      }
      MorePromised(s, now, after, gone, Elements(a.ids));
    }
  }

  lemma ShowsRevisions(after: State, doc: string, owner: Id, parents: seq<Parent>, ids: seq<Id>)
    requires Shows(after, doc, owner, parents, ids)
    ensures forall id :: id in ids ==> id in after.memories && after.memories[id].revision == 1
  {
    assert forall i :: 0 <= i < |ids| ==> ids[i] in Elements(ids);
  }

  lemma MorePromised(s: State, now: State, after: State, gone: set<Id>, born: set<Id>)
    requires Promises(s, now) && gone <= now.memories.Keys && born !! now.memories.Keys
    requires after.memories.Keys == now.memories.Keys - gone + born && now.intents.Keys <= after.intents.Keys
    requires forall id :: id in now.memories && id !in gone ==> after.memories[id] == now.memories[id]
    requires forall id :: id in gone ==> exists k :: k in after.intents && k.entity == id && k.operation == Delete
    requires forall id :: id in born ==>
               after.memories[id].revision == 1 && exists k :: k in after.intents && k == Key(id, 1, Upsert, k.generation)
    requires forall k :: k in after.intents && k !in now.intents ==>
               (k.entity in gone && k.operation == Delete) || (k.entity in born && k.operation == Upsert)
    requires forall k :: k in now.intents ==> k.entity !in born
    ensures Promises(s, after)
  {
    forall id | id in s.memories && id !in after.memories
      ensures exists k :: k in after.intents && k.entity == id && k.operation == Delete
    {
      if id !in gone {
        assert id !in now.memories;
        var k :| k in now.intents && k.entity == id && k.operation == Delete;
        assert k in after.intents;
      }
    }
    forall id | id in after.memories && id !in s.memories
      ensures exists k :: k in after.intents && k == Key(id, 1, Upsert, k.generation)
    {
      if id !in born {
        var k :| k in now.intents && k == Key(id, 1, Upsert, k.generation);
        assert k in after.intents;
      }
    }
    forall k | k in after.intents && k !in s.intents && k.operation == Upsert && k.entity !in after.memories
      ensures exists d :: d in after.intents && d.entity == k.entity && d.operation == Delete
    {
      if k.entity !in gone {
        assert k in now.intents && k.entity !in now.memories;
        var d :| d in now.intents && d.entity == k.entity && d.operation == Delete;
        assert d in after.intents;
      }
    }
  }

  lemma {:induction false} PromisesAlways(s: State, library: Library, acts: seq<Action>)
    requires Valid(s, library, acts)
    ensures Promises(s, Run(s, library, acts))
  {
    hide Promises, Projected, Decide, Unused;
    if acts == [] {
      NothingPromised(s);
    } else {
      var shorter, last := acts[..|acts| - 1], acts[|acts| - 1];
      PromisesAlways(s, library, shorter);
      var before := Run(s, library, shorter);
      if last.Project? {
        ProjectKeepsPromises(s, before, library, last);
      } else if last.Erase? {
        EraseKeepsPromises(s, before, last.doc, last.owner, last.generation);
      } else {
        MorePromisedForget(s, before, Next(before, library, last));
      }
    }
  }

  lemma NothingPromised(s: State)
    ensures Promises(s, s)
  {
  }

  lemma MorePromisedForget(s: State, now: State, after: State)
    requires Promises(s, now) && after.memories == now.memories && after.intents == now.intents
    ensures Promises(s, after)
  {
  }

  // ── forgetting ─────────────────────────────────────────────────────────────

  /** A forgotten identity stays forgotten and never gains a row, whatever is projected or erased afterwards. */
  lemma {:induction false} ForgottenGainsNothing(s: State, library: Library, acts: seq<Action>, doc: string, owner: Id)
    requires Valid(s, library, acts) && (owner, doc) in s.suppressed
    ensures (owner, doc) in Run(s, library, acts).suppressed
    ensures RowsOf(Run(s, library, acts).memories, doc, owner) <= RowsOf(s.memories, doc, owner)
  {
    hide Projected, Unused, RowsOf, Erased;
    if acts != [] {
      var shorter, last := acts[..|acts| - 1], acts[|acts| - 1];
      ForgottenGainsNothing(s, library, shorter, doc, owner);
      ForgottenStep(Run(s, library, shorter), library, last, doc, owner);
    }
  }

  lemma ForgottenStep(s: State, library: Library, a: Action, doc: string, owner: Id)
    requires (a.Project? ==> |a.ids| == 1 + |a.parents| && Unused(s, a.ids)) && (owner, doc) in s.suppressed
    ensures (owner, doc) in Next(s, library, a).suppressed
    ensures RowsOf(Next(s, library, a).memories, doc, owner) <= RowsOf(s.memories, doc, owner)
  {
    if a.Project? { OthersUntouched(s, library, a, doc, owner); }
  }
}
