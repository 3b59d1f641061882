/** The embedding-contract guards (app/retrieval/embedder.py): a collection's own metadata stamp, and the
    manifest row of a generation. */
module ContractGuard {
  import opened Common

  /** What the current settings embed with. */
  datatype Contract = Contract(backend: string, canonical: string, dim: int)

  /** A metadata value as it reads back; `asInt` is what int(...) makes of it. */
  datatype MetaValue = Nil | Text(s: string, asInt: Option<int>) | Number(n: int)
  type Meta = map<string, MetaValue>

  const BACKEND := "orivory_embed_backend"
  const DIM := "orivory_embed_dim"
  const FINGERPRINT := "orivory_embed_fingerprint"
  const GENERATION := "orivory_embed_generation"
  const STAMP_KEYS := {BACKEND, DIM, FINGERPRINT, GENERATION}

  datatype Population = Uncountable | CountFails | Count(n: nat)

  datatype Refusal =
    | NoCount | BadMetadata | PopulatedUnknown | Incomplete | NoFingerprint | OtherContract | OtherGeneration
    | OtherBackendOrDim | NotPersisted | NoManifestRow | OtherMetric | NoDim | OtherDim

  datatype Verdict = Passes | MustStamp(meta: Meta) | Refuses(why: Refusal)

  function IntOf(v: MetaValue): Option<int> {
    match v
    case Nil => None
    case Text(_, asInt) => asInt
    case Number(n) => Some(n)
  }

  /** A string as stored, whatever int(...) would make of it. */
  predicate IsText(v: MetaValue, s: string) { v.Text? && v.s == s }

  function Stamped(meta: Meta, c: Contract, hash: string -> string): Meta {
    meta[BACKEND := Text(c.backend, None)][DIM := Number(c.dim)]
        [FINGERPRINT := Text(c.canonical, None)][GENERATION := Text(hash(c.canonical), None)]
  }

  /** `meta` is None when it cannot be read or is not a dictionary. */
  function CheckCollectionDim(population: Population, meta: Option<Meta>, c: Contract,
                              hash: string -> string): Verdict {
    if population.CountFails? then Refuses(NoCount)
    else if meta.None? then Refuses(BadMetadata)
    else
      var m := meta.value;
      if m.Keys !! STAMP_KEYS then
        if population.Count? && population.n > 0 then Refuses(PopulatedUnknown) else MustStamp(Stamped(m, c, hash))
      else if DIM !in m || BACKEND !in m || FINGERPRINT !in m then Refuses(Incomplete)
      else if !m[FINGERPRINT].Text? || m[FINGERPRINT].s == "" then Refuses(NoFingerprint)
      else if m[FINGERPRINT].s != c.canonical then Refuses(OtherContract)
      else if GENERATION in m && m[GENERATION] != Nil && !IsText(m[GENERATION], hash(c.canonical)) then Refuses(OtherGeneration)
      else if IntOf(m[DIM]) != Some(c.dim) || !IsText(m[BACKEND], c.backend) then Refuses(OtherBackendOrDim)
      else Passes
  }

  /** The stamp records this contract. */
  predicate Records(meta: Option<Meta>, c: Contract) {
    && meta.Some? && {DIM, BACKEND, FINGERPRINT} <= meta.value.Keys
    && IsText(meta.value[FINGERPRINT], c.canonical) && IsText(meta.value[BACKEND], c.backend)
    && IntOf(meta.value[DIM]) == Some(c.dim)
  }

  predicate Agrees(meta: Meta, c: Contract, hash: string -> string) {
    GENERATION in meta && meta[GENERATION] != Nil ==> IsText(meta[GENERATION], hash(c.canonical))
  }

  /** The check passes exactly for the recorded contract, if it has a name and its token is not another's. */
  lemma PassesIff(population: Population, meta: Option<Meta>, c: Contract, hash: string -> string)
    ensures CheckCollectionDim(population, meta, c, hash) == Passes
            <==> !population.CountFails? && Records(meta, c) && c.canonical != "" && Agrees(meta.value, c, hash)
  {
  }

  lemma RecordsOne(meta: Option<Meta>, c: Contract, d: Contract)
    requires Records(meta, c) && Records(meta, d)
    ensures c == d
  {
  }

  /** After a stamp the check passes for the contract stamped, unless that contract's name is empty, and for no
      other. */
  lemma StampThenCheck(population: Population, meta: Option<Meta>, c: Contract, d: Contract, hash: string -> string,
                       later: Population)
    requires CheckCollectionDim(population, meta, c, hash).MustStamp? && !later.CountFails?
    ensures var stamped := CheckCollectionDim(population, meta, c, hash).meta;
            CheckCollectionDim(later, Some(stamped), d, hash) == Passes <==> c == d && c.canonical != ""
  {
  }

  /** A stamp is asked for exactly when the metadata has no part of one and nothing is known to be stored; it adds the
      four values of this contract and leaves the rest of the metadata. */
  lemma StampIff(population: Population, meta: Option<Meta>, c: Contract, hash: string -> string)
    ensures var v := CheckCollectionDim(population, meta, c, hash);
            && (v.MustStamp? <==>
                  && !population.CountFails? && !(population.Count? && population.n > 0) && meta.Some?
                  && "orivory_embed_backend" !in meta.value && "orivory_embed_dim" !in meta.value
                  && "orivory_embed_fingerprint" !in meta.value && "orivory_embed_generation" !in meta.value)
            && (v.MustStamp? ==>
                  v.meta == meta.value + map["orivory_embed_backend" := Text(c.backend, None),
                                             "orivory_embed_dim" := Number(c.dim),
                                             "orivory_embed_fingerprint" := Text(c.canonical, None),
                                             "orivory_embed_generation" := Text(hash(c.canonical), None)])
  {
  }

  /** Which refusal comes first. */
  lemma RefusalsOf(population: Population, meta: Option<Meta>, c: Contract, hash: string -> string)
    ensures var v := CheckCollectionDim(population, meta, c, hash);
            && (v == Refuses(NoCount) <==> population.CountFails?)
            && (v == Refuses(BadMetadata) <==> !population.CountFails? && meta.None?)
            && (!population.CountFails? && meta.Some? ==>
                  var m := meta.value;
                  && (v == Refuses(PopulatedUnknown) <==>
                        m.Keys !! {BACKEND, DIM, FINGERPRINT, GENERATION} && population.Count? && population.n > 0)
                  && (v == Refuses(Incomplete) <==>
                        !(m.Keys !! {BACKEND, DIM, FINGERPRINT, GENERATION}) && !({BACKEND, DIM, FINGERPRINT} <= m.Keys))
                  && ({BACKEND, DIM, FINGERPRINT} <= m.Keys ==>
                        && (v == Refuses(NoFingerprint) <==> !m[FINGERPRINT].Text? || m[FINGERPRINT].s == "")
                        && (v == Refuses(OtherContract) <==>
                              m[FINGERPRINT].Text? && m[FINGERPRINT].s != "" && m[FINGERPRINT].s != c.canonical)
                        && var ours := m[FINGERPRINT].Text? && m[FINGERPRINT].s != "" && m[FINGERPRINT].s == c.canonical;
                           var token := GENERATION !in m || m[GENERATION] == Nil
                                        || (m[GENERATION].Text? && m[GENERATION].s == hash(c.canonical));
                           && (v == Refuses(OtherGeneration) <==> ours && !token)
                           && (v == Refuses(OtherBackendOrDim) <==>
                                 ours && token && !(m[BACKEND].Text? && m[BACKEND].s == c.backend
                                                    && (m[DIM] == Number(c.dim) || (m[DIM].Text? && m[DIM].asInt == Some(c.dim)))))))
  {
    if meta.Some? && {BACKEND, DIM, FINGERPRINT} <= meta.value.Keys {
      assert BACKEND in meta.value.Keys * {BACKEND, DIM, FINGERPRINT, GENERATION};
    }
  }

  // ── stamping and writing ───────────────────────────────────────────────────

  datatype State = State(meta: Option<Meta>, vectors: seq<Contract>)

  /** One guarded write of `n` vectors; `wrote` is the metadata after the stamp's write, None when that write raises. */
  datatype Write = Write(contract: Contract, n: nat, wrote: Option<Meta>)

  predicate SameValue(a: MetaValue, b: MetaValue) { if b.Text? then IsText(a, b.s) else a == b }

  /** The write went through and reads back with the same four values. */
  predicate Persisted(stamp: Meta, wrote: Option<Meta>) {
    wrote.Some? && forall k :: k in STAMP_KEYS ==> k in stamp && k in wrote.value && SameValue(wrote.value[k], stamp[k])
  }

  function Guarded(s: State, w: Write, hash: string -> string): (State, Option<Refusal>) {
    match CheckCollectionDim(Count(|s.vectors|), s.meta, w.contract, hash)
    case Refuses(why) => (s, Some(why))
    case Passes => (s.(vectors := s.vectors + seq(w.n, _ => w.contract)), None)
    case MustStamp(stamp) =>
      if !Persisted(stamp, w.wrote) then (if w.wrote.Some? then s.(meta := w.wrote) else s, Some(NotPersisted))
      else (State(w.wrote, s.vectors + seq(w.n, _ => w.contract)), None)
  }

  class Collection {
    var meta: Option<Meta>
    var vectors: seq<Contract>

    /** The check, and the stamp of an unstamped empty collection. Fails closed before any vector write. */
    method StampCollectionDim(w: Write, hash: string -> string) returns (refusal: Option<Refusal>)
      modifies this
      ensures vectors == old(vectors)
      ensures meta == Guarded(old(State(meta, vectors)), w, hash).0.meta
      ensures refusal == Guarded(old(State(meta, vectors)), w, hash).1
    {
      match CheckCollectionDim(Count(|vectors|), meta, w.contract, hash) {
        case Passes => return None;
        case Refuses(why) => return Some(why);
        case MustStamp(stamp) =>
          if w.wrote.Some? { meta := w.wrote; }
          return if Persisted(stamp, w.wrote) then None else Some(NotPersisted);
      }
    }

    method GuardedWrite(w: Write, hash: string -> string) returns (refusal: Option<Refusal>)
      modifies this
      ensures (State(meta, vectors), refusal) == Guarded(old(State(meta, vectors)), w, hash)
    {
      refusal := StampCollectionDim(w, hash);
      if refusal.None? {
        vectors := vectors + seq(w.n, _ => w.contract);
      }
    }
  }

  function Run(s: State, writes: seq<Write>, hash: string -> string): State {
    if writes == [] then s else Guarded(Run(s, writes[..|writes| - 1], hash), writes[|writes| - 1], hash).0
  }

  /** The vectors held, if any, are all of the contract the metadata records. */
  ghost predicate Pure(s: State) {
    s.vectors != [] ==> exists c :: Records(s.meta, c) && forall i :: 0 <= i < |s.vectors| ==> s.vectors[i] == c
  }

  /** The first write to an unstamped empty collection, its stamp having landed, is accepted: the metadata is what was
      written and records this contract, and the vectors are the write's. */
  lemma FirstWriteLands(s: State, w: Write, hash: string -> string)
    requires s.vectors == [] && s.meta.Some? && s.meta.value.Keys !! STAMP_KEYS
    requires w.wrote.Some? && STAMP_KEYS <= w.wrote.value.Keys
    requires IsText(w.wrote.value[BACKEND], w.contract.backend) && w.wrote.value[DIM] == Number(w.contract.dim)
    requires IsText(w.wrote.value[FINGERPRINT], w.contract.canonical)
    requires IsText(w.wrote.value[GENERATION], hash(w.contract.canonical))
    ensures Guarded(s, w, hash).1 == None && Guarded(s, w, hash).0.meta == w.wrote
    ensures |Guarded(s, w, hash).0.vectors| == w.n
    ensures forall i :: 0 <= i < w.n ==> Guarded(s, w, hash).0.vectors[i] == w.contract
    ensures Records(w.wrote, w.contract)
  {
    assert DIM != BACKEND && DIM != FINGERPRINT && DIM != GENERATION;
    assert FINGERPRINT != BACKEND && FINGERPRINT != GENERATION && BACKEND != GENERATION;
  }

  /** And if it has not landed no vector is written. */
  lemma LostStampWritesNothing(s: State, w: Write, hash: string -> string)
    requires s.vectors == [] && s.meta.Some? && s.meta.value.Keys !! STAMP_KEYS
    requires w.wrote.None?
             || exists k :: k in STAMP_KEYS && (k !in w.wrote.value
                              || !SameValue(w.wrote.value[k], Stamped(s.meta.value, w.contract, hash)[k]))
    ensures Guarded(s, w, hash).0.vectors == [] && Guarded(s, w, hash).1 == Some(NotPersisted)
    ensures Guarded(s, w, hash).0.meta == match w.wrote case None => s.meta case Some(_) => w.wrote
  {
  }

  lemma WriteKeepsPure(s: State, w: Write, hash: string -> string)
    requires Pure(s)
    ensures Pure(Guarded(s, w, hash).0)
    ensures Guarded(s, w, hash).0.meta != s.meta ==> s.vectors == []
    ensures s.meta.Some? && !(s.meta.value.Keys !! STAMP_KEYS) ==> Guarded(s, w, hash).0.meta == s.meta
  {
    var after := Guarded(s, w, hash).0;
    PassesIff(Count(|s.vectors|), s.meta, w.contract, hash);
    if after.vectors != [] && after.vectors != s.vectors {
      if s.vectors != [] {
        var c :| Records(s.meta, c) && forall i :: 0 <= i < |s.vectors| ==> s.vectors[i] == c;
        NotUnstamped(s, c, w, hash);
        RecordsOne(s.meta, c, w.contract);
      }
      assert Records(after.meta, w.contract);
    }
  }

  lemma NotUnstamped(s: State, c: Contract, w: Write, hash: string -> string)
    requires Records(s.meta, c)
    ensures !CheckCollectionDim(Count(|s.vectors|), s.meta, w.contract, hash).MustStamp?
  {
    assert DIM in s.meta.value.Keys * STAMP_KEYS;
  }

  /** However the settings change between writes, a collection that starts empty never holds two contracts. */
  lemma {:induction false} NeverMixed(s: State, writes: seq<Write>, hash: string -> string)
    requires s.vectors == []
    ensures Pure(Run(s, writes, hash))
  {
    if writes != [] {
      NeverMixed(s, writes[..|writes| - 1], hash);
      WriteKeepsPure(Run(s, writes[..|writes| - 1], hash), writes[|writes| - 1], hash);
    }
  }

  /** Metadata that carries any part of a stamp is the same after any run. */
  lemma {:induction false} StampNeverChanges(s: State, writes: seq<Write>, hash: string -> string)
    requires Pure(s) && s.meta.Some? && !(s.meta.value.Keys !! STAMP_KEYS)
    ensures Pure(Run(s, writes, hash)) && Run(s, writes, hash).meta == s.meta
  {
    if writes != [] {
      StampNeverChanges(s, writes[..|writes| - 1], hash);
      WriteKeepsPure(Run(s, writes[..|writes| - 1], hash), writes[|writes| - 1], hash);
    }
  }

  // ── generations and their manifest row ─────────────────────────────────────

  /** What the store reports of the physical collection. */
  datatype Info = Info(distance: string, dim: Option<int>)

  function Lower(s: string): string {
    seq(|s|, i requires 0 <= i < |s| => if 'A' <= s[i] <= 'Z' then s[i] + ('a' - 'A') else s[i])
  }

  function CheckGeneration(info: Info, c: Contract, manifest: Option<string>, empty: bool,
                           hash: string -> string): Option<Refusal> {
    if manifest.None? && !empty then Some(NoManifestRow)
    else if manifest.Some? && manifest.value != hash(c.canonical) then Some(OtherContract)
    else if Lower(info.distance) != "cosine" then Some(OtherMetric)
    else if info.dim.None? then Some(NoDim)
    else if info.dim.value != c.dim then Some(OtherDim)
    else None
  }

  /** Which refusal comes first: a populated generation without a row, another contract's row, another metric, a
      dimension that cannot be read, another dimension. */
  lemma GenerationRefusals(info: Info, c: Contract, manifest: Option<string>, empty: bool, hash: string -> string)
    ensures var r := CheckGeneration(info, c, manifest, empty, hash);
            var unclaimed, foreign := manifest.None? && !empty, manifest.Some? && manifest.value != hash(c.canonical);
            var cosine := Lower(info.distance) == "cosine";
            && (r == Some(NoManifestRow) <==> unclaimed) && (r == Some(OtherContract) <==> foreign)
            && (r == Some(OtherMetric) <==> !unclaimed && !foreign && !cosine)
            && (r == Some(NoDim) <==> !unclaimed && !foreign && cosine && info.dim.None?)
            && (r == Some(OtherDim) <==> !unclaimed && !foreign && cosine && info.dim.Some? && info.dim != Some(c.dim))
            && (r == None <==> !unclaimed && !foreign && cosine && info.dim == Some(c.dim))
  {
  }

  /** The metric's case does not matter. */
  lemma LowerOf(s: string, i: nat)
    requires i < |s|
    ensures |Lower(s)| == |s|
    ensures 'A' <= s[i] <= 'Z' ==> Lower(s)[i] as int == s[i] as int + 32
    ensures !('A' <= s[i] <= 'Z') ==> Lower(s)[i] == s[i]
  {
  }

  datatype Generation = Generation(info: Info, manifest: Option<string>, vectors: seq<Contract>)

  /** A guarded write of a non-empty batch, or the manifest row being written by the migration. */
  datatype Event = Upsert(contract: Contract, more: nat) | Claim(token: string)

  function After(g: Generation, e: Event, hash: string -> string): Generation {
    match e
    case Claim(token) => g.(manifest := Some(token))
    case Upsert(c, more) =>
      if CheckGeneration(g.info, c, g.manifest, g.vectors == [], hash).None?
      then g.(vectors := g.vectors + seq(more + 1, _ => c)) else g
  }

  function Events(g: Generation, events: seq<Event>, hash: string -> string): Generation {
    if events == [] then g else After(Events(g, events[..|events| - 1], hash), events[|events| - 1], hash)
  }

  /** A row may be written for a generation that is empty or already holds that contract, as the cutover checks. */
  ghost predicate Rightful(g: Generation, e: Event, hash: string -> string) {
    e.Claim? ==> forall c :: c in g.vectors ==> hash(c.canonical) == e.token
  }

  ghost predicate AllRightful(g: Generation, events: seq<Event>, hash: string -> string) {
    forall k :: 0 <= k < |events| ==> Rightful(Events(g, events[..k], hash), events[k], hash)
  }

  /** Every vector has the collection's dimension, one token, and the claimed one once there is a row. */
  ghost predicate OneToken(g: Generation, hash: string -> string) {
    && (forall c, d :: c in g.vectors && d in g.vectors ==> hash(c.canonical) == hash(d.canonical))
    && (forall c :: c in g.vectors ==> Some(c.dim) == g.info.dim)
    && (g.manifest.Some? ==> forall c :: c in g.vectors ==> hash(c.canonical) == g.manifest.value)
  }

  lemma EventKeepsOneToken(g: Generation, e: Event, hash: string -> string)
    requires OneToken(g, hash) && Rightful(g, e, hash)
    ensures OneToken(After(g, e, hash), hash)
  {
    var after := After(g, e, hash);
    if e.Upsert? && after.vectors != g.vectors {
      forall c | c in after.vectors ensures c in g.vectors || c == e.contract {}
    }
  }

  /** Over any run of writes and rightful claims a generation holds vectors of one contract token. */
  lemma {:induction false} GenerationNeverMixed(g: Generation, events: seq<Event>, hash: string -> string)
    requires g.vectors == [] && AllRightful(g, events, hash)
    ensures OneToken(Events(g, events, hash), hash)
  {
    if events != [] {
      var shorter := events[..|events| - 1];
      assert forall k :: 0 <= k < |shorter| ==> shorter[..k] == events[..k];
      GenerationNeverMixed(g, shorter, hash);
      assert Rightful(Events(g, events[..|events| - 1], hash), events[|events| - 1], hash);
      EventKeepsOneToken(Events(g, shorter, hash), events[|events| - 1], hash);
    }
  }

  /** Without a row, a populated generation takes no further write. */
  lemma {:induction false} UnclaimedIsFrozen(g: Generation, events: seq<Event>, hash: string -> string)
    requires g.manifest.None? && g.vectors != [] && forall i :: 0 <= i < |events| ==> events[i].Upsert?
    ensures Events(g, events, hash) == g
  {
    if events != [] { UnclaimedIsFrozen(g, events[..|events| - 1], hash); }
  }

  /** The next write of a contract is accepted exactly when the generation is the contract's own (or unclaimed and
      empty). */
  lemma AcceptedIff(g: Generation, c: Contract, more: nat, hash: string -> string)
    requires OneToken(g, hash)
    ensures |After(g, Upsert(c, more), hash).vectors| > |g.vectors|
            <==> && (g.manifest == Some(hash(c.canonical)) || (g.manifest.None? && g.vectors == []))
                 && Lower(g.info.distance) == "cosine" && g.info.dim == Some(c.dim)
  {
  }

  /** A row written over vectors of another contract lets a second contract in, for any two contracts of one
      dimension. */
  lemma WrongClaimMixes(c: Contract, d: Contract, hash: string -> string)
    requires hash(c.canonical) != hash(d.canonical) && c.dim == d.dim
    ensures var g := Generation(Info("cosine", Some(c.dim)), None, []);
            var events := [Upsert(c, 0), Claim(hash(d.canonical)), Upsert(d, 0)];
            !AllRightful(g, events, hash) && Events(g, events, hash).vectors == [c, d]
  {
    var g := Generation(Info("cosine", Some(c.dim)), None, []);
    var events := [Upsert(c, 0), Claim(hash(d.canonical)), Upsert(d, 0)];
    assert Lower("cosine") == "cosine";
    assert events[..2][..1] == events[..1] && events[..1][..0] == [] && events[..3] == events;
    assert seq(1, _ => c) == [c] && seq(1, _ => d) == [d];
    assert Events(g, events[..1], hash) == After(g, events[0], hash);
    assert Events(g, events[..1], hash).vectors == [c];
    assert Events(g, events[..2], hash).vectors == [c];
    assert c in Events(g, events[..1], hash).vectors;
    assert !Rightful(Events(g, events[..1], hash), events[1], hash);
  }
}
