/** Connector items synchronised into memories (app/ingestion/dispatcher.py). */
module Sync {
  import opened Common

  /** The fields whose change counts as an update, and those that ride along. */
  datatype Body = Body(title: string, content: string, summary: Option<string>)
  datatype Item = Item(ref: Option<string>, body: Body, tags: seq<string>)

  datatype Memory = Memory(owner: Id, body: Body, tags: seq<string>, revision: nat)
  datatype Link = Link(source: Id, ref: Option<string>, memory: Id)
  /** An index intent: the memory and the revision it promises. */
  datatype Promise = Promise(memory: Id, revision: nat)

  datatype State = State(memories: map<Id, Memory>, links: seq<Link>, intents: set<Promise>)

  datatype Outcome = Added(id: Id) | Updated(id: Id) | Skipped | Failed

  datatype Source = Source(id: Id, owner: Id)

  /** The first link of this source and reference; a missing reference is compared like any other. */
  function Find(links: seq<Link>, source: Id, ref: Option<string>): (found: Option<nat>)
    ensures found.Some? ==>
              found.value < |links| && links[found.value].source == source && links[found.value].ref == ref
    ensures found.None? ==> forall i :: 0 <= i < |links| ==> !(links[i].source == source && links[i].ref == ref)
  {
    if links == [] then None
    else
      var earlier := Find(links[..|links| - 1], source, ref);
      if earlier.Some? then earlier
      else if links[|links| - 1].source == source && links[|links| - 1].ref == ref then Some(|links| - 1) else None
  }

  /** A forgotten reference is looked up only when the item has a non-empty one. */
  predicate Forgotten(ref: Option<string>, suppressed: set<string>) {
    ref.Some? && ref.value != "" && ref.value in suppressed
  }

  predicate LinksLead(s: State) { forall i :: 0 <= i < |s.links| ==> s.links[i].memory in s.memories }

  /** What one item does; `newId` is the id generated if a memory is created. */
  function Persisted(s: State, source: Source, item: Item, suppressed: set<string>, newId: Id): (State, Outcome)
    requires LinksLead(s)
  {
    if Forgotten(item.ref, suppressed) then (s, Skipped)
    else
      match Find(s.links, source.id, item.ref)
      case Some(i) =>
        var id := s.links[i].memory;
        var m := s.memories[id];
        if m.body == item.body then (s, Skipped)
        else
          var changed := m.(body := item.body, tags := item.tags, revision := m.revision + 1);
          (s.(memories := s.memories[id := changed], intents := s.intents + {Promise(id, changed.revision)}), Updated(id))
      case None =>
        var made := Memory(source.owner, item.body, item.tags, 1);
        var links := s.links + [Link(source.id, item.ref, newId)];
        (State(s.memories[newId := made], links, s.intents + {Promise(newId, 1)}), Added(newId))
  }

  /** Where persisting an item raises, if it does: at its first look-up, once the row is written and before its intent,
      or once a new row has its intent and before its link. The batch is committed all the same. */
  datatype Raise = Never | AtOnce | BeforeIntent | BeforeLink

  /** What one item does when it may raise on the way. */
  function Attempted(s: State, source: Source, item: Item, suppressed: set<string>, newId: Id, raise: Raise)
    : (State, Outcome)
    requires LinksLead(s)
  {
    var (done, outcome) := Persisted(s, source, item, suppressed, newId);
    if raise == Never then (done, outcome)
    else if raise == AtOnce then (s, Failed)
    else
      match outcome
      case Added(_) =>
        (s.(memories := done.memories, intents := if raise == BeforeLink then done.intents else s.intents), Failed)
      case Updated(_) => if raise == BeforeLink then (done, outcome) else (s.(memories := done.memories), Failed)
      case _ => (s, outcome)
  }

  /** What an item makes: a memory of the source's owner at revision 1 and a link to it; or, for a reference that has one,
      new text and tags at the next revision, everything else as it was; or nothing. */
  lemma ItemMakes(s: State, source: Source, item: Item, suppressed: set<string>, newId: Id)
    requires LinksLead(s) && newId !in s.memories
    ensures var (now, outcome) := Persisted(s, source, item, suppressed, newId);
            var forgotten := item.ref.Some? && item.ref.value != "" && item.ref.value in suppressed;
            var known := exists i :: 0 <= i < |s.links| && s.links[i].source == source.id && s.links[i].ref == item.ref;
            && (outcome.Added? <==> !forgotten && !known)
            && (outcome.Added? ==>
                  && outcome.id == newId && now.memories == s.memories[newId := Memory(source.owner, item.body, item.tags, 1)]
                  && now.links == s.links + [Link(source.id, item.ref, newId)]
                  && now.intents == s.intents + {Promise(newId, 1)})
            && (outcome.Updated? ==>
                  && !forgotten && known && now.links == s.links && outcome.id in s.memories
                  && s.memories[outcome.id].body != item.body
                  && (exists i :: 0 <= i < |s.links| && s.links[i] == Link(source.id, item.ref, outcome.id))
                  && now.memories == s.memories[outcome.id := Memory(s.memories[outcome.id].owner, item.body, item.tags,
                                                                     s.memories[outcome.id].revision + 1)]
                  && now.intents == s.intents + {Promise(outcome.id, s.memories[outcome.id].revision + 1)})
            && (outcome.Added? || outcome.Updated? || (outcome == Skipped && now == s))
  {
    var at := Find(s.links, source.id, item.ref);
    if at.Some? { assert s.links[at.value] == Link(source.id, item.ref, s.links[at.value].memory); }
  }

  // ── invariants of the tables ───────────────────────────────────────────────

  /** Links lead to memories; a source has one link per reference and one per memory. */
  ghost predicate Valid(s: State) {
    && LinksLead(s)
    && (forall i, j :: 0 <= i < j < |s.links| && s.links[i].source == s.links[j].source ==>
          s.links[i].ref != s.links[j].ref && s.links[i].memory != s.links[j].memory)
  }

  /** The body a reference of the source shows, if it has a memory. */
  function Shown(s: State, source: Id, ref: Option<string>): Option<Body>
    requires LinksLead(s)
  {
    match Find(s.links, source, ref)
    case None => None
    case Some(i) => Some(s.memories[s.links[i].memory].body)
  }

  /** One item: the tables stay valid, its reference ends with its body, no other reference of the source changes. */
  lemma PersistShows(s: State, source: Source, item: Item, suppressed: set<string>, newId: Id, ref: Option<string>)
    requires Valid(s) && newId !in s.memories
    ensures LinksLead(s)
    ensures var (after, outcome) := Persisted(s, source, item, suppressed, newId);
            && Valid(after) && LinksLead(s) && LinksLead(after)
            && s.memories.Keys <= after.memories.Keys <= s.memories.Keys + {newId}
            && Shown(after, source.id, ref)
               == (if ref == item.ref && !Forgotten(ref, suppressed) then Some(item.body) else Shown(s, source.id, ref))
            && (outcome == Skipped <==> after == s)
  {
    hide Forgotten;
    var (after, outcome) := Persisted(s, source, item, suppressed, newId);
    if !Forgotten(item.ref, suppressed) {
      var at := Find(s.links, source.id, item.ref);
      if at.Some? {
        UpdateShows(s, source.id, item.ref, ref, at.value, after);
      } else {
        CreateShows(s, source.id, item.ref, ref, newId, after);
      }
    }
  }

  lemma UpdateShows(s: State, source: Id, updated: Option<string>, ref: Option<string>, at: nat, after: State)
    requires Valid(s) && Find(s.links, source, updated) == Some(at) && after.links == s.links
    requires s.links[at].memory in after.memories
             && after.memories == s.memories[s.links[at].memory := after.memories[s.links[at].memory]]
    ensures Valid(after)
    ensures Shown(after, source, ref)
              == (if ref == updated then Some(after.memories[s.links[at].memory].body) else Shown(s, source, ref))
  {
    var found := Find(s.links, source, ref);
    if ref != updated && found.Some? {
      if found.value < at { assert s.links[found.value].memory != s.links[at].memory; }
      if at < found.value { assert s.links[at].memory != s.links[found.value].memory; }
    }
  }

  lemma CreateShows(s: State, source: Id, created: Option<string>, ref: Option<string>, newId: Id, after: State)
    requires Valid(s) && newId !in s.memories && Find(s.links, source, created) == None
    requires after.links == s.links + [Link(source, created, newId)]
    requires newId in after.memories && after.memories == s.memories[newId := after.memories[newId]]
    ensures Valid(after)
    ensures Shown(after, source, ref)
              == (if ref == created then Some(after.memories[newId].body) else Shown(s, source, ref))
  {
    FindAppended(s.links, Link(source, created, newId), source, ref);
    hide Find;
  }

  lemma FindAppended(links: seq<Link>, link: Link, source: Id, ref: Option<string>)
    ensures Find(links + [link], source, ref)
              == if Find(links, source, ref).Some? then Find(links, source, ref)
                 else if link.source == source && link.ref == ref then Some(|links|) else None
  {
    assert (links + [link])[..|links|] == links;
  }

  /** What one item makes its reference show: its body if it gets through, or if it raises late on a row that was
      there already. */
  function ShownAfter(before: Option<Body>, item: Item, raise: Raise, suppressed: set<string>): Option<Body> {
    if Forgotten(item.ref, suppressed) || raise == AtOnce then before
    else if raise == Never || before.Some? then Some(item.body)
    else None
  }

  lemma AttemptShows(s: State, source: Source, item: Item, suppressed: set<string>, newId: Id, raise: Raise,
                     ref: Option<string>)
    requires Valid(s) && newId !in s.memories
    ensures LinksLead(s)
    ensures var (after, outcome) := Attempted(s, source, item, suppressed, newId, raise);
            && Valid(after) && LinksLead(after)
            && s.memories.Keys <= after.memories.Keys <= s.memories.Keys + {newId}
            && Shown(after, source.id, ref)
               == (if ref == item.ref then ShownAfter(Shown(s, source.id, ref), item, raise, suppressed)
                   else Shown(s, source.id, ref))
            && (outcome == Skipped ==> after == s)
            && (outcome == Failed && raise == AtOnce ==> after == s)
  {
    hide Forgotten, Shown;
    PersistShows(s, source, item, suppressed, newId, ref);
    SkipIff(s, source, item, suppressed, newId);
    LinkIsShown(s, source.id, item.ref);
    if raise.BeforeIntent? || raise.BeforeLink? {
      var (done, outcome) := Persisted(s, source, item, suppressed, newId);
      var (after, _) := Attempted(s, source, item, suppressed, newId, raise);
      if outcome.Added? {
        UnlinkedShows(s, source.id, ref, newId, after);
      } else if outcome.Updated? {
        UpdateShows(s, source.id, item.ref, ref, Find(s.links, source.id, item.ref).value, after);
      }
    }
  }

  lemma LinkIsShown(s: State, source: Id, ref: Option<string>)
    requires LinksLead(s)
    ensures Shown(s, source, ref).Some? <==> Find(s.links, source, ref).Some?
  {
  }

  lemma UnlinkedShows(s: State, source: Id, ref: Option<string>, newId: Id, after: State)
    requires Valid(s) && newId !in s.memories && after.links == s.links
    requires newId in after.memories && after.memories == s.memories[newId := after.memories[newId]]
    ensures Valid(after) && Shown(after, source, ref) == Shown(s, source, ref)
  {
  }

  /** Intents are made for revisions rows have had, none for later ones. */
  ghost predicate PromisesPast(s: State) {
    forall p :: p in s.intents && p.memory in s.memories ==> p.revision <= s.memories[p.memory].revision
  }

  /** An update that raises before its intent: its row is changed at a revision no intent is for, and the next sync of
      the same item skips it, so none ever will be. */
  lemma LateUpdateIsLost(s: State, source: Source, item: Item, suppressed: set<string>, newId: Id, next: Id)
    requires Valid(s) && newId !in s.memories && PromisesPast(s)
    requires Persisted(s, source, item, suppressed, newId).1.Updated?
    ensures var (after, outcome) := Attempted(s, source, item, suppressed, newId, BeforeIntent);
            var id := Persisted(s, source, item, suppressed, newId).1.id;
            && outcome == Failed && LinksLead(after) && id in after.memories && id in s.memories
            && after.memories[id].revision == s.memories[id].revision + 1
            && Promise(id, after.memories[id].revision) !in after.intents
            && Persisted(after, source, item, suppressed, next) == (after, Skipped)
  {
    AttemptShows(s, source, item, suppressed, newId, BeforeIntent, item.ref);
    var (after, _) := Attempted(s, source, item, suppressed, newId, BeforeIntent);
    hide Forgotten, Find, Shown;
    SkipIff(s, source, item, suppressed, newId);
    SkipIff(after, source, item, suppressed, next);
  }

  /** A create that raises before its link leaves its memory without one, and the next sync makes a second. */
  lemma LateCreateIsDoubled(s: State, source: Source, item: Item, suppressed: set<string>, newId: Id, raise: Raise,
                            next: Id)
    requires Valid(s) && newId !in s.memories && next !in s.memories && next != newId
    requires Persisted(s, source, item, suppressed, newId).1.Added? && (raise == BeforeIntent || raise == BeforeLink)
    ensures var (after, outcome) := Attempted(s, source, item, suppressed, newId, raise);
            && outcome == Failed && LinksLead(after)
            && var (again, _) := Persisted(after, source, item, suppressed, next);
               newId in again.memories && next in again.memories && again.memories[newId] == again.memories[next]
  {
    AttemptShows(s, source, item, suppressed, newId, raise, item.ref);
    var (after, _) := Attempted(s, source, item, suppressed, newId, raise);
    AttemptShows(after, source, item, suppressed, next, Never, item.ref);
  }

  // ── a whole sync ───────────────────────────────────────────────────────────

  datatype Counters = Counters(added: nat, updated: nat, skipped: nat, errors: nat)

  function Tally(c: Counters, o: Outcome): Counters {
    match o
    case Added(_) => c.(added := c.added + 1)
    case Updated(_) => c.(updated := c.updated + 1)
    case Skipped => c.(skipped := c.skipped + 1)
    case Failed => c.(errors := c.errors + 1)
  }

  /** Generated ids: one per item, all different and none in use. */
  ghost predicate Unused(s: State, ids: seq<Id>) {
    && (forall i :: 0 <= i < |ids| ==> ids[i] !in s.memories)
    && (forall i, j :: 0 <= i < j < |ids| ==> ids[i] != ids[j])
  }

  /** The tables after the first n items. */
  ghost function Synced(s: State, source: Source, items: seq<Item>, raises: seq<Raise>, suppressed: set<string>,
                        ids: seq<Id>, n: nat): (now: State)
    requires Valid(s) && Unused(s, ids) && n <= |items| == |raises| == |ids|
    ensures Valid(now) && LinksLead(now) && forall j :: n <= j < |ids| ==> ids[j] !in now.memories
  {
    if n == 0 then s
    else
      var t := Synced(s, source, items, raises, suppressed, ids, n - 1);
      AttemptShows(t, source, items[n - 1], suppressed, ids[n - 1], raises[n - 1], None);
      Attempted(t, source, items[n - 1], suppressed, ids[n - 1], raises[n - 1]).0
  }

  /** The last of the first n items that changed or made this memory. */
  ghost function LastChange(s: State, source: Source, items: seq<Item>, raises: seq<Raise>, suppressed: set<string>,
                            ids: seq<Id>, n: nat, id: Id): (j: Option<nat>)
    requires Valid(s) && Unused(s, ids) && n <= |items| == |raises| == |ids|
    ensures j.Some? ==> j.value < n
  {
    if n == 0 then None
    else if Changed(Synced(s, source, items, raises, suppressed, ids, n - 1),
                    Synced(s, source, items, raises, suppressed, ids, n), id) then Some(n - 1)
    else LastChange(s, source, items, raises, suppressed, ids, n - 1, id)
  }

  /** The generated ids have no intents yet either. */
  ghost predicate NonePromised(s: State, ids: seq<Id>, n: nat)
    requires n <= |ids|
  {
    forall p, j :: p in s.intents && n <= j < |ids| ==> p.memory != ids[j]
  }

  /** One item and one memory: a change raises the revision, and its intent is there unless the item raised before it. */
  lemma AttemptPromises(s: State, source: Source, item: Item, suppressed: set<string>, newId: Id, raise: Raise, id: Id)
    requires LinksLead(s) && PromisesPast(s) && newId !in s.memories && forall p :: p in s.intents ==> p.memory != newId
    ensures var now := Attempted(s, source, item, suppressed, newId, raise).0;
            && PromisesPast(now) && s.memories.Keys <= now.memories.Keys
            && (forall p :: p in now.intents ==> p in s.intents || p.memory == newId || p.memory in s.memories)
            && (Changed(s, now, id) ==>
                  && (id in s.memories ==> s.memories[id].revision < now.memories[id].revision)
                  && (Promise(id, now.memories[id].revision) in now.intents <==> raise != BeforeIntent))
            && (!Changed(s, now, id) && id in now.memories ==>
                  id in s.memories && now.memories[id] == s.memories[id]
                  && (Promise(id, s.memories[id].revision) in now.intents <==> Promise(id, s.memories[id].revision) in s.intents))
  {
    hide Forgotten;
  }

  /** For each memory by itself, whatever else of the batch raises: it is changed or new exactly when some item did that,
      and then it lacks an intent at its revision exactly when the last such item raised before the intent. */
  lemma {:induction false} UnpromisedIff(s: State, source: Source, items: seq<Item>, raises: seq<Raise>,
                                         suppressed: set<string>, ids: seq<Id>, n: nat, id: Id)
    requires Valid(s) && Unused(s, ids) && n <= |items| == |raises| == |ids|
    requires PromisesPast(s) && NonePromised(s, ids, 0)
    ensures var now, last := Synced(s, source, items, raises, suppressed, ids, n),
                             LastChange(s, source, items, raises, suppressed, ids, n, id);
            && PromisesPast(now) && NonePromised(now, ids, n)
            && (id in s.memories ==> id in now.memories && s.memories[id].revision <= now.memories[id].revision)
            && (Changed(s, now, id) <==> last.Some?)
            && (Changed(s, now, id) && id in s.memories ==> s.memories[id].revision < now.memories[id].revision)
            && (last.Some? ==>
                  (Promise(id, now.memories[id].revision) !in now.intents <==> raises[last.value] == BeforeIntent))
  {
    hide Attempted, Valid, LinksLead;
    if n > 0 {
      UnpromisedIff(s, source, items, raises, suppressed, ids, n - 1, id);
      var t := Synced(s, source, items, raises, suppressed, ids, n - 1);
      AttemptPromises(t, source, items[n - 1], suppressed, ids[n - 1], raises[n - 1], id);
    }
  }

  /** A memory that changed or is new has the text and tags of the last item that did it; its owner stays, or is the
      source's. */
  lemma {:induction false} ChangesShow(s: State, source: Source, items: seq<Item>, raises: seq<Raise>,
                                       suppressed: set<string>, ids: seq<Id>, n: nat, id: Id)
    requires Valid(s) && Unused(s, ids) && n <= |items| == |raises| == |ids|
    ensures var now, last := Synced(s, source, items, raises, suppressed, ids, n),
                             LastChange(s, source, items, raises, suppressed, ids, n, id);
            && s.memories.Keys <= now.memories.Keys
            && (id in s.memories ==> now.memories[id].owner == s.memories[id].owner)
            && (id in now.memories && id !in s.memories ==> now.memories[id].owner == source.owner)
            && (last.Some? && id in now.memories ==>
                  now.memories[id].body == items[last.value].body && now.memories[id].tags == items[last.value].tags)
            && (last.None? && id in now.memories ==> id in s.memories && now.memories[id] == s.memories[id])
  {
    hide Attempted, Valid, LinksLead;
    if n > 0 {
      ChangesShow(s, source, items, raises, suppressed, ids, n - 1, id);
      var t := Synced(s, source, items, raises, suppressed, ids, n - 1);
      AttemptMakes(t, source, items[n - 1], suppressed, ids[n - 1], raises[n - 1], id);
    }
  }

  lemma AttemptMakes(s: State, source: Source, item: Item, suppressed: set<string>, newId: Id, raise: Raise, id: Id)
    requires LinksLead(s) && newId !in s.memories
    ensures var now := Attempted(s, source, item, suppressed, newId, raise).0;
            && s.memories.Keys <= now.memories.Keys
            && (id in s.memories ==> now.memories[id].owner == s.memories[id].owner)
            && (id in now.memories && id !in s.memories ==> now.memories[id].owner == source.owner)
            && (Changed(s, now, id) ==> now.memories[id].body == item.body && now.memories[id].tags == item.tags)
  {
    hide Forgotten;
  }

  /** The counters and the list for indexing after the first n items, from the outcome of each. */
  ghost function CountersOf(s: State, source: Source, items: seq<Item>, raises: seq<Raise>, suppressed: set<string>,
                            ids: seq<Id>, n: nat): Counters
    requires Valid(s) && Unused(s, ids) && n <= |items| == |raises| == |ids|
  {
    if n == 0 then Counters(0, 0, 0, 0)
    else
      var before := Synced(s, source, items, raises, suppressed, ids, n - 1);
      Tally(CountersOf(s, source, items, raises, suppressed, ids, n - 1),
            Attempted(before, source, items[n - 1], suppressed, ids[n - 1], raises[n - 1]).1)
  }

  ghost function IndexedOf(s: State, source: Source, items: seq<Item>, raises: seq<Raise>, suppressed: set<string>,
                           ids: seq<Id>, n: nat): seq<Id>
    requires Valid(s) && Unused(s, ids) && n <= |items| == |raises| == |ids|
  {
    if n == 0 then []
    else
      var before := Synced(s, source, items, raises, suppressed, ids, n - 1);
      IndexedOf(s, source, items, raises, suppressed, ids, n - 1)
      + match Attempted(before, source, items[n - 1], suppressed, ids[n - 1], raises[n - 1]).1
        case Added(id) => [id]
        case Updated(id) => [id]
        case _ => []
  }

  /** Item j was persisted, or skipped, without raising. */
  ghost predicate GotThrough(s: State, source: Source, items: seq<Item>, raises: seq<Raise>, suppressed: set<string>,
                             ids: seq<Id>, j: nat)
    requires Valid(s) && Unused(s, ids) && j < |items| == |raises| == |ids|
  {
    var before := Synced(s, source, items, raises, suppressed, ids, j);
    Attempted(before, source, items[j], suppressed, ids[j], raises[j]).1 != Failed
  }

  /** A memory whose last change got through is listed for indexing. */
  ghost predicate Listed(s: State, source: Source, items: seq<Item>, raises: seq<Raise>, suppressed: set<string>,
                         ids: seq<Id>, n: nat, toIndex: seq<Id>)
    requires Valid(s) && Unused(s, ids) && n <= |items| == |raises| == |ids|
  {
    forall id :: var last := LastChange(s, source, items, raises, suppressed, ids, n, id);
      last.Some? && GotThrough(s, source, items, raises, suppressed, ids, last.value) ==> id in toIndex
  }

  lemma ChangesOwn(s: State, source: Source, item: Item, suppressed: set<string>, newId: Id, raise: Raise, id: Id)
    requires LinksLead(s) && newId !in s.memories
    ensures var (now, outcome) := Attempted(s, source, item, suppressed, newId, raise);
            Changed(s, now, id) ==> outcome == Added(id) || outcome == Updated(id) || outcome == Failed
  {
    hide Forgotten;
  }

  lemma ListedStep(s: State, source: Source, items: seq<Item>, raises: seq<Raise>, suppressed: set<string>, ids: seq<Id>,
                   n: nat, before: seq<Id>, toIndex: seq<Id>)
    requires Valid(s) && Unused(s, ids) && n < |items| == |raises| == |ids|
    requires Listed(s, source, items, raises, suppressed, ids, n, before)
    requires var t := Synced(s, source, items, raises, suppressed, ids, n);
             match Attempted(t, source, items[n], suppressed, ids[n], raises[n]).1
             case Added(id) => toIndex == before + [id]
             case Updated(id) => toIndex == before + [id]
             case _ => toIndex == before
    ensures Listed(s, source, items, raises, suppressed, ids, n + 1, toIndex)
  {
    hide Attempted, Valid, LinksLead, Changed, Synced;
    var t := Synced(s, source, items, raises, suppressed, ids, n);
    forall id
      ensures var last := LastChange(s, source, items, raises, suppressed, ids, n + 1, id);
              last.Some? && GotThrough(s, source, items, raises, suppressed, ids, last.value) ==> id in toIndex
    {
      SyncedNext(s, source, items, raises, suppressed, ids, n);
      ChangesOwn(t, source, items[n], suppressed, ids[n], raises[n], id);
      assert id in before ==> id in toIndex;
    }
  }

  lemma SyncedNext(s: State, source: Source, items: seq<Item>, raises: seq<Raise>, suppressed: set<string>, ids: seq<Id>,
                   n: nat)
    requires Valid(s) && Unused(s, ids) && n < |items| == |raises| == |ids|
    ensures var before := Synced(s, source, items, raises, suppressed, ids, n);
            Synced(s, source, items, raises, suppressed, ids, n + 1)
            == Attempted(before, source, items[n], suppressed, ids[n], raises[n]).0
    ensures var outcome := Attempted(Synced(s, source, items, raises, suppressed, ids, n), source, items[n], suppressed,
                                     ids[n], raises[n]).1;
            && CountersOf(s, source, items, raises, suppressed, ids, n + 1)
               == Tally(CountersOf(s, source, items, raises, suppressed, ids, n), outcome)
            && IndexedOf(s, source, items, raises, suppressed, ids, n + 1)
               == IndexedOf(s, source, items, raises, suppressed, ids, n)
                  + (match outcome case Added(id) => [id] case Updated(id) => [id] case _ => [])
  {
  }

  lemma NoneSynced(s: State, source: Source, items: seq<Item>, raises: seq<Raise>, suppressed: set<string>, ids: seq<Id>)
    requires Valid(s) && Unused(s, ids) && |items| == |raises| == |ids|
    ensures Synced(s, source, items, raises, suppressed, ids, 0) == s
    ensures Listed(s, source, items, raises, suppressed, ids, 0, [])
    ensures CountersOf(s, source, items, raises, suppressed, ids, 0) == Counters(0, 0, 0, 0)
    ensures IndexedOf(s, source, items, raises, suppressed, ids, 0) == []
  {
  }

  class SourceSync {
    var memories: map<Id, Memory>
    var links: seq<Link>
    var intents: set<Promise>

    ghost function Now(): State
      reads this
    {
      State(memories, links, intents)
    }

    /** `raise` says where it raises; the caller counts that as Failed. */
    method PersistItem(source: Source, item: Item, suppressed: set<string>, newId: Id, raise: Raise)
      returns (outcome: Outcome)
      requires LinksLead(Now())
      modifies this
      ensures (Now(), outcome) == Attempted(old(Now()), source, item, suppressed, newId, raise)
    {
      if raise == AtOnce { return Failed; }
      if Forgotten(item.ref, suppressed) { return Skipped; }
      var at := Find(links, source.id, item.ref);
      if at.Some? {
        var id := links[at.value].memory;
        var m := memories[id];
        if m.body == item.body { return Skipped; }
        var revision := m.revision + 1;
        memories := memories[id := m.(body := item.body, tags := item.tags, revision := revision)];
        if raise == BeforeIntent { return Failed; }
        intents := intents + {Promise(id, revision)};
        return Updated(id);
      }
      memories := memories[newId := Memory(source.owner, item.body, item.tags, 1)];
      if raise == BeforeIntent { return Failed; }
      intents := intents + {Promise(newId, 1)};
      if raise == BeforeLink { return Failed; }
      links := links + [Link(source.id, item.ref, newId)];
      return Added(newId);
    }

    /** `raises[i]` says where persisting item i raises. */
    method Sync(source: Source, items: seq<Item>, raises: seq<Raise>, suppressed: set<string>, ids: seq<Id>)
      returns (counters: Counters, toIndex: seq<Id>)
      requires |items| == |raises| == |ids| && Valid(Now()) && Unused(Now(), ids)
      modifies this
      ensures Valid(Now()) && LinksLead(Now()) && LinksLead(old(Now()))
      ensures Now() == Synced(old(Now()), source, items, raises, suppressed, ids, |items|)
      ensures Listed(old(Now()), source, items, raises, suppressed, ids, |items|, toIndex)
      ensures counters.added + counters.updated + counters.skipped + counters.errors == |items|
      ensures |toIndex| == counters.added + counters.updated
      ensures |links| == |old(links)| + counters.added
      ensures (forall r :: r in raises ==> r == Never) ==> counters.errors == 0
      ensures (forall r :: r in raises ==> r == AtOnce) ==> counters.errors == |items|
      ensures forall ref :: Shown(Now(), source.id, ref)
                == Expected(Shown(old(Now()), source.id, ref), items, raises, suppressed, ref)
      ensures old(memories).Keys <= memories.Keys && old(intents) <= intents
      ensures BeforeIntent !in raises ==>
                forall id :: Changed(old(Now()), Now(), id) ==> Promise(id, memories[id].revision) in intents
      ensures BeforeIntent !in raises && BeforeLink !in raises ==>
                forall id :: Changed(old(Now()), Now(), id) ==> id in toIndex
      ensures counters.added + counters.updated + counters.errors == 0 ==> Now() == old(Now())
      ensures AllShown(old(Now()), source.id, items, suppressed) && AtOnce !in raises ==>
                counters == Counters(0, 0, |items|, 0)
    {
      counters, toIndex := Counters(0, 0, 0, 0), [];
      ghost var start := Now();
      hide Attempted, Valid, Shown, LinksLead, Expected, AllShown, Synced, Listed, CountersOf, IndexedOf, Changed;
      NoneSynced(start, source, items, raises, suppressed, ids);
      for i := 0 to |items|
        invariant Now() == Synced(start, source, items, raises, suppressed, ids, i)
        invariant counters == CountersOf(start, source, items, raises, suppressed, ids, i)
        invariant toIndex == IndexedOf(start, source, items, raises, suppressed, ids, i)
      {
        SyncedNext(start, source, items, raises, suppressed, ids, i);
        var outcome := PersistItem(source, items[i], suppressed, ids[i], raises[i]);
        counters := Tally(counters, outcome);
        match outcome {
          case Added(id) => toIndex := toIndex + [id];
          case Updated(id) => toIndex := toIndex + [id];
          case Skipped =>
          case Failed =>
        }
      }
      SyncMeans(start, source, items, raises, suppressed, ids);
    }
  }

  /** Everything that holds after the first n items. */
  ghost predicate UpTo(s: State, source: Source, items: seq<Item>, raises: seq<Raise>, suppressed: set<string>,
                       ids: seq<Id>, n: nat)
    requires Valid(s) && Unused(s, ids) && n <= |items| == |raises| == |ids|
  {
    var now := Synced(s, source, items, raises, suppressed, ids, n);
    var counters := CountersOf(s, source, items, raises, suppressed, ids, n);
    var toIndex := IndexedOf(s, source, items, raises, suppressed, ids, n);
    && LinksLead(s)
    && counters.added + counters.updated + counters.skipped + counters.errors == n
    && |toIndex| == counters.added + counters.updated && |now.links| == |s.links| + counters.added
    && ErrorsRight(counters.errors, raises, n)
    && ShowsExpected(s, now, source.id, items, raises, n, suppressed)
    && Listed(s, source, items, raises, suppressed, ids, n, toIndex)
    && Kept(s, now, toIndex, BeforeIntent !in raises, BeforeIntent !in raises && BeforeLink !in raises)
    && (counters.added + counters.updated + counters.errors == 0 ==> now == s)
    && (AllShown(s, source.id, items, suppressed) && AtOnce !in raises ==> now == s && counters == Counters(0, 0, n, 0))
  }

  lemma UpToNone(s: State, source: Source, items: seq<Item>, raises: seq<Raise>, suppressed: set<string>, ids: seq<Id>)
    requires Valid(s) && Unused(s, ids) && |items| == |raises| == |ids|
    ensures UpTo(s, source, items, raises, suppressed, ids, 0)
  {
    NoErrors(raises);
    NoneSynced(s, source, items, raises, suppressed, ids);
    NothingKept(s);
    NothingExpected(s, source.id, items, raises, suppressed);
    hide Shown, ShowsExpected, Kept, AllShown, Listed, ErrorsRight, Valid;
  }

  lemma UpToNext(s: State, source: Source, items: seq<Item>, raises: seq<Raise>, suppressed: set<string>, ids: seq<Id>,
                 n: nat)
    requires Valid(s) && Unused(s, ids) && n < |items| == |raises| == |ids|
    requires UpTo(s, source, items, raises, suppressed, ids, n)
    ensures UpTo(s, source, items, raises, suppressed, ids, n + 1)
  {
    hide Attempted, Valid, Shown, LinksLead, Expected, AllShown, Synced, Listed, CountersOf, IndexedOf, Changed, Kept,
      ErrorsRight, ShowsExpected;
    var now := Synced(s, source, items, raises, suppressed, ids, n);
    var counters := CountersOf(s, source, items, raises, suppressed, ids, n);
    var toIndex := IndexedOf(s, source, items, raises, suppressed, ids, n);
    var outcome := Attempted(now, source, items[n], suppressed, ids[n], raises[n]).1;
    SyncedNext(s, source, items, raises, suppressed, ids, n);
    ItemExpected(s, now, source, items, raises, n, suppressed, ids[n]);
    assert raises[n] in raises;
    Skips(now, source, items, n, suppressed, ids[n], raises[n]);
    AddsLink(now, source, items[n], suppressed, ids[n], raises[n]);
    OneMoreRaise(counters.errors, raises, n, outcome);
    AttemptKeeps(s, now, source, items[n], suppressed, ids[n], raises[n], toIndex,
                 BeforeIntent !in raises, BeforeIntent !in raises && BeforeLink !in raises);
    ListedStep(s, source, items, raises, suppressed, ids, n, toIndex,
               IndexedOf(s, source, items, raises, suppressed, ids, n + 1));
  }

  lemma {:induction false} UpToAll(s: State, source: Source, items: seq<Item>, raises: seq<Raise>,
                                   suppressed: set<string>, ids: seq<Id>, n: nat)
    requires Valid(s) && Unused(s, ids) && n <= |items| == |raises| == |ids|
    ensures UpTo(s, source, items, raises, suppressed, ids, n)
  {
    hide UpTo, Valid;
    if n == 0 {
      UpToNone(s, source, items, raises, suppressed, ids);
    } else {
      UpToAll(s, source, items, raises, suppressed, ids, n - 1);
      UpToNext(s, source, items, raises, suppressed, ids, n - 1);
    }
  }

  lemma SyncMeans(s: State, source: Source, items: seq<Item>, raises: seq<Raise>, suppressed: set<string>, ids: seq<Id>)
    requires Valid(s) && Unused(s, ids) && |items| == |raises| == |ids|
    ensures LinksLead(s)
    ensures var now := Synced(s, source, items, raises, suppressed, ids, |items|);
            var counters := CountersOf(s, source, items, raises, suppressed, ids, |items|);
            var toIndex := IndexedOf(s, source, items, raises, suppressed, ids, |items|);
            && Listed(s, source, items, raises, suppressed, ids, |items|, toIndex)
            && counters.added + counters.updated + counters.skipped + counters.errors == |items|
            && |toIndex| == counters.added + counters.updated && |now.links| == |s.links| + counters.added
            && ((forall r :: r in raises ==> r == Never) ==> counters.errors == 0)
            && ((forall r :: r in raises ==> r == AtOnce) ==> counters.errors == |items|)
            && (forall ref :: Shown(now, source.id, ref)
                  == Expected(Shown(s, source.id, ref), items, raises, suppressed, ref))
            && s.memories.Keys <= now.memories.Keys && s.intents <= now.intents
            && (BeforeIntent !in raises ==>
                  forall id :: Changed(s, now, id) ==> Promise(id, now.memories[id].revision) in now.intents)
            && (BeforeIntent !in raises && BeforeLink !in raises ==> forall id :: Changed(s, now, id) ==> id in toIndex)
            && (counters.added + counters.updated + counters.errors == 0 ==> now == s)
            && (AllShown(s, source.id, items, suppressed) && AtOnce !in raises ==> counters == Counters(0, 0, |items|, 0))
  {
    hide Valid, Shown, LinksLead, Expected, AllShown, Synced, Listed, CountersOf, IndexedOf, Changed, Kept, ErrorsRight,
      ShowsExpected;
    UpToAll(s, source, items, raises, suppressed, ids, |items|);
    var now := Synced(s, source, items, raises, suppressed, ids, |items|);
    var toIndex := IndexedOf(s, source, items, raises, suppressed, ids, |items|);
    AllExpected(s, now, source.id, items, raises, suppressed);
    ErrorsMean(CountersOf(s, source, items, raises, suppressed, ids, |items|).errors, raises);
    KeptMeans(s, now, toIndex, BeforeIntent !in raises, BeforeIntent !in raises && BeforeLink !in raises);
  }

  /** No item of the first n failed if none raises, every one if all raise at once. */
  ghost predicate ErrorsRight(errors: int, raises: seq<Raise>, n: nat) {
    && ((forall r :: r in raises ==> r == Never) ==> errors == 0)
    && ((forall r :: r in raises ==> r == AtOnce) ==> errors == n)
  }

  lemma NoErrors(raises: seq<Raise>)
    ensures ErrorsRight(0, raises, 0)
  {
  }

  lemma ErrorsMean(errors: int, raises: seq<Raise>)
    requires ErrorsRight(errors, raises, |raises|)
    ensures (forall r :: r in raises ==> r == Never) ==> errors == 0
    ensures (forall r :: r in raises ==> r == AtOnce) ==> errors == |raises|
  {
  }

  lemma OneMoreRaise(errors: int, raises: seq<Raise>, i: nat, outcome: Outcome)
    requires i < |raises| && ErrorsRight(errors, raises, i)
    requires (raises[i] == Never ==> outcome != Failed) && (raises[i] == AtOnce ==> outcome == Failed)
    ensures ErrorsRight(errors + if outcome == Failed then 1 else 0, raises, i + 1)
  {
    assert raises[i] in raises;
  }

  /** A link is added with each memory counted as added, and at no other time. */
  lemma AddsLink(s: State, source: Source, item: Item, suppressed: set<string>, newId: Id, raise: Raise)
    requires LinksLead(s)
    ensures var (now, outcome) := Attempted(s, source, item, suppressed, newId, raise);
            && |now.links| == |s.links| + (if outcome.Added? then 1 else 0)
            && (raise == Never ==> outcome != Failed) && (raise == AtOnce ==> outcome == Failed)
  {
    hide Find, Forgotten;
  }

  /** A skipped item changes nothing, and an item of a list that is all shown is skipped unless its look-up raises. */
  lemma Skips(s: State, source: Source, items: seq<Item>, i: nat, suppressed: set<string>, newId: Id, raise: Raise)
    requires LinksLead(s) && i < |items|
    ensures Attempted(s, source, items[i], suppressed, newId, raise).1 == Skipped ==>
              Attempted(s, source, items[i], suppressed, newId, raise).0 == s
    ensures AllShown(s, source.id, items, suppressed) && raise != AtOnce ==>
              Attempted(s, source, items[i], suppressed, newId, raise).1 == Skipped
  {
    SkipIff(s, source, items[i], suppressed, newId);
  }

  /** After i items each reference of the source shows what is expected of it. */
  ghost predicate ShowsExpected(start: State, now: State, source: Id, items: seq<Item>, raises: seq<Raise>, i: nat,
                                suppressed: set<string>)
    requires LinksLead(start) && LinksLead(now) && i <= |items| == |raises|
  {
    forall ref :: Shown(now, source, ref) == Expected(Shown(start, source, ref), items[..i], raises[..i], suppressed, ref)
  }

  lemma NothingExpected(s: State, source: Id, items: seq<Item>, raises: seq<Raise>, suppressed: set<string>)
    requires LinksLead(s) && |items| == |raises|
    ensures ShowsExpected(s, s, source, items, raises, 0, suppressed)
  {
    hide Shown;
  }

  lemma AllExpected(start: State, now: State, source: Id, items: seq<Item>, raises: seq<Raise>, suppressed: set<string>)
    requires LinksLead(start) && LinksLead(now) && |items| == |raises|
    requires ShowsExpected(start, now, source, items, raises, |items|, suppressed)
    ensures forall ref :: Shown(now, source, ref) == Expected(Shown(start, source, ref), items, raises, suppressed, ref)
  {
    hide Shown;
    assert items[..|items|] == items && raises[..|raises|] == raises;
  }

  lemma ItemExpected(start: State, now: State, source: Source, items: seq<Item>, raises: seq<Raise>, i: nat,
                     suppressed: set<string>, newId: Id)
    requires Valid(now) && LinksLead(start) && LinksLead(now) && i < |items| == |raises|
    requires newId !in now.memories && ShowsExpected(start, now, source.id, items, raises, i, suppressed)
    ensures var after := Attempted(now, source, items[i], suppressed, newId, raises[i]).0;
            && Valid(after) && LinksLead(after) && after.memories.Keys <= now.memories.Keys + {newId}
            && ShowsExpected(start, after, source.id, items, raises, i + 1, suppressed)
  {
    hide Shown, Forgotten, Attempted, Valid, LinksLead, ShownAfter;
    AttemptShows(now, source, items[i], suppressed, newId, raises[i], None);
    var after := Attempted(now, source, items[i], suppressed, newId, raises[i]).0;
    assert items[..i + 1][..i] == items[..i] && raises[..i + 1][..i] == raises[..i];
    forall ref
      ensures Shown(after, source.id, ref)
              == Expected(Shown(start, source.id, ref), items[..i + 1], raises[..i + 1], suppressed, ref)
    {
      AttemptShows(now, source, items[i], suppressed, newId, raises[i], ref);
    }
  }

  predicate Changed(start: State, now: State, id: Id) {
    id in now.memories && (id !in start.memories || now.memories[id] != start.memories[id])
  }

  /** Nothing is dropped, and changed and new rows have an intent at their current revision and are listed for indexing,
      as far as no late raise is about. */
  ghost predicate Kept(start: State, now: State, toIndex: seq<Id>, promised: bool, listed: bool) {
    && start.memories.Keys <= now.memories.Keys && start.intents <= now.intents
    && (promised ==> forall id :: Changed(start, now, id) ==> Promise(id, now.memories[id].revision) in now.intents)
    && (listed ==> forall id :: Changed(start, now, id) ==> id in toIndex)
  }

  lemma NothingKept(s: State)
    requires Valid(s)
    ensures Kept(s, s, [], true, true) && LinksLead(s)
    ensures forall promised, listed :: Kept(s, s, [], promised, listed)
  {
  }

  lemma KeptMeans(start: State, now: State, toIndex: seq<Id>, promised: bool, listed: bool)
    requires Kept(start, now, toIndex, promised, listed)
    ensures start.memories.Keys <= now.memories.Keys && start.intents <= now.intents
    ensures promised ==> forall id :: Changed(start, now, id) ==> Promise(id, now.memories[id].revision) in now.intents
    ensures listed ==> forall id :: Changed(start, now, id) ==> id in toIndex
  {
  }

  lemma AttemptKeeps(start: State, now: State, source: Source, item: Item, suppressed: set<string>, newId: Id,
                     raise: Raise, toIndex: seq<Id>, promised: bool, listed: bool)
    requires Valid(now) && Kept(start, now, toIndex, promised, listed)
    requires (promised ==> raise != BeforeIntent) && (listed ==> raise != BeforeIntent && raise != BeforeLink)
    ensures var (after, outcome) := Attempted(now, source, item, suppressed, newId, raise);
            match outcome
            case Added(id) => Kept(start, after, toIndex + [id], promised, listed)
            case Updated(id) => Kept(start, after, toIndex + [id], promised, listed)
            case Skipped => after == now
            case Failed => Kept(start, after, toIndex, promised, listed)
  {
    hide Forgotten;
  }

  /** What a reference shows after these items. */
  function Expected(before: Option<Body>, items: seq<Item>, raises: seq<Raise>, suppressed: set<string>,
                    ref: Option<string>): Option<Body>
    requires |items| == |raises|
  {
    if items == [] then before else
      var n := |items| - 1;
      var shown := Expected(before, items[..n], raises[..n], suppressed, ref);
      if items[n].ref == ref then ShownAfter(shown, items[n], raises[n], suppressed) else shown
  }

  /** A forgotten reference shows what it showed. */
  lemma {:induction false} ForgottenUnchanged(before: Option<Body>, items: seq<Item>, raises: seq<Raise>,
      suppressed: set<string>, ref: Option<string>)
    requires |items| == |raises| && Forgotten(ref, suppressed)
    ensures Expected(before, items, raises, suppressed, ref) == before
  {
    if items != [] {
      ForgottenUnchanged(before, items[..|items| - 1], raises[..|items| - 1], suppressed, ref);
    }
  }

  // ── the second sync ────────────────────────────────────────────────────────

  /** Items of one reference, forgotten ones aside, all carry the same body. */
  ghost predicate Agree(items: seq<Item>, suppressed: set<string>) {
    forall i, j :: 0 <= i < j < |items| && items[i].ref == items[j].ref && !Forgotten(items[i].ref, suppressed) ==>
      items[i].body == items[j].body
  }

  /** Every item is forgotten or already shown, so persisting any of them skips. */
  ghost predicate AllShown(s: State, source: Id, items: seq<Item>, suppressed: set<string>)
    requires LinksLead(s)
  {
    forall i :: 0 <= i < |items| ==>
      Forgotten(items[i].ref, suppressed) || Shown(s, source, items[i].ref) == Some(items[i].body)
  }

  lemma SkipIff(s: State, source: Source, item: Item, suppressed: set<string>, newId: Id)
    requires LinksLead(s)
    ensures Persisted(s, source, item, suppressed, newId).1 == Skipped
            <==> Forgotten(item.ref, suppressed) || Shown(s, source.id, item.ref) == Some(item.body)
    ensures Persisted(s, source, item, suppressed, newId).1 == Skipped ==>
              Persisted(s, source, item, suppressed, newId).0 == s
  {
  }

  lemma {:induction false} ExpectedLast(before: Option<Body>, items: seq<Item>, suppressed: set<string>, i: nat)
    requires Agree(items, suppressed) && i < |items| && !Forgotten(items[i].ref, suppressed)
    ensures Expected(before, items, seq(|items|, _ => Never), suppressed, items[i].ref) == Some(items[i].body)
  {
    var n := |items| - 1;
    var raises := seq(|items|, _ => Never);
    if i < n && items[n].ref != items[i].ref {
      ExpectedLast(before, items[..n], suppressed, i);
      assert raises[..n] == seq(n, _ => Never);
    }
  }

  /** The expected body is that of the last item to get through, or to raise late on a row that was there. */
  lemma {:induction false} ExpectedIsLatest(before: Option<Body>, items: seq<Item>, raises: seq<Raise>,
                                            suppressed: set<string>, j: nat)
    requires |raises| == |items| && j < |items| && !Forgotten(items[j].ref, suppressed)
    requires raises[j] == Never
             || (raises[j] != AtOnce && Expected(before, items[..j], raises[..j], suppressed, items[j].ref).Some?)
    requires forall k :: j < k < |items| ==> items[k].ref != items[j].ref || raises[k] == AtOnce
    ensures Expected(before, items, raises, suppressed, items[j].ref) == Some(items[j].body)
  {
    var n := |items| - 1;
    if j < n {
      assert items[..n][..j] == items[..j] && raises[..n][..j] == raises[..j];
      ExpectedIsLatest(before, items[..n], raises[..n], suppressed, j);
    }
  }

  /** After a sync without failures, every item would be skipped by a second one exactly when items sharing a reference
      agree; with distinct references they do. */
  lemma SecondSyncSkipsIff(after: State, source: Source, items: seq<Item>, suppressed: set<string>,
                           before: Option<string> -> Option<Body>)
    requires Valid(after)
    requires forall ref :: Shown(after, source.id, ref)
               == Expected(before(ref), items, seq(|items|, _ => Never), suppressed, ref)
    ensures AllShown(after, source.id, items, suppressed) <==> Agree(items, suppressed)
    ensures (forall i, j :: 0 <= i < j < |items| ==> items[i].ref != items[j].ref) ==>
              AllShown(after, source.id, items, suppressed)
  {
    hide Forgotten;
    if Agree(items, suppressed) {
      forall i | 0 <= i < |items| && !Forgotten(items[i].ref, suppressed)
        ensures Shown(after, source.id, items[i].ref) == Some(items[i].body)
      {
        ExpectedLast(before(items[i].ref), items, suppressed, i);
      }
    }
    if AllShown(after, source.id, items, suppressed) {
      forall i, j | 0 <= i < j < |items| && items[i].ref == items[j].ref && !Forgotten(items[i].ref, suppressed)
        ensures items[i].body == items[j].body
      {
        assert Shown(after, source.id, items[i].ref) == Some(items[i].body);
        assert Shown(after, source.id, items[j].ref) == Some(items[j].body);
      }
    }
  }
}
