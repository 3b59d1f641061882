/** The rollback to the pre-migration store: rebuild, fixture gates and manifest stamp. */
module Rollback {
  import opened Common
  import opened Manifest
  import opened Eligibility

  /** A collection's own stamp. `dim` is the parsed number, None when it does not parse. */
  datatype Stamp = Stamp(fingerprint: string, generation: Option<string>, backend: Option<string>, dim: Option<int>,
                         space: Option<string>)

  /** A point's payload: `user` is "" when absent, `generation` the per-point contract token. */
  datatype Point = Point(user: string, generation: Option<string>)

  datatype Store = Store(stamp: Stamp, points: map<Id, Point>)

  /** The contract the old binary's guard insists on; `hash` is the token of a canonical fingerprint. */
  datatype Legacy = Legacy(canonical: string, dim: int, backend: string, space: string, hash: string -> string)

  datatype Problem = FingerprintProblem | GenerationProblem | BackendProblem | DimProblem | SpaceProblem

  datatype Bucket = FingerprintBucket | TenantIsolation | Correction | Forget | IdSet | Chunks

  // A finding names a point, or a problem with the stamp of the memory collection (None) or of the chunk
  // collection of one conversation: there is one chunk collection per conversation id.
  datatype Finding = PointFinding(bucket: Bucket, id: Id) | StampFinding(collection: Option<Id>, problem: Problem)

  datatype GateOutcome = Findings(findings: set<Finding>) | Raised

  function TenantOf(p: Point): string { if p.user == "" then "unknown" else p.user }

  // ── the stamp ──────────────────────────────────────────────────────────────

  method ContractFindings(stamp: Stamp, legacy: Legacy) returns (problems: set<Problem>)
    ensures forall problem :: problem in problems <==> Wrong(problem, stamp, legacy)
    ensures FingerprintProblem in problems <==> stamp.fingerprint != legacy.canonical
    ensures GenerationProblem !in problems <==>
              legacy.hash(stamp.fingerprint) != "" && stamp.generation == Some(legacy.hash(stamp.fingerprint))
    ensures BackendProblem in problems <==> stamp.backend != Some(legacy.backend)
    ensures DimProblem in problems <==> stamp.dim != Some(legacy.dim)
    ensures SpaceProblem in problems <==> stamp.space != Some(legacy.space)
    ensures problems == {} <==> StampHonoured(stamp, legacy)
  {
    problems := {};
    if stamp.fingerprint != legacy.canonical {
      problems := problems + {FingerprintProblem};
    }
    var generation := legacy.hash(stamp.fingerprint);
    if generation == "" || stamp.generation != Some(generation) {
      problems := problems + {GenerationProblem};
    }
    if stamp.backend != Some(legacy.backend) {
      problems := problems + {BackendProblem};
    }
    if stamp.dim != Some(legacy.dim) {
      problems := problems + {DimProblem};
    }
    if stamp.space != Some(legacy.space) {
      problems := problems + {SpaceProblem};
    }
    StampHonouredIff(stamp, legacy);
  }

  /** The token checked is that of the stamp's own canonical text, not of the legacy one. */
  predicate Wrong(problem: Problem, stamp: Stamp, legacy: Legacy) {
    match problem
    case FingerprintProblem => stamp.fingerprint != legacy.canonical
    case GenerationProblem =>
      legacy.hash(stamp.fingerprint) == "" || stamp.generation != Some(legacy.hash(stamp.fingerprint))
    case BackendProblem => stamp.backend != Some(legacy.backend)
    case DimProblem => stamp.dim != Some(legacy.dim)
    case SpaceProblem => stamp.space != Some(legacy.space)
  }

  lemma StampHonouredIff(stamp: Stamp, legacy: Legacy)
    ensures StampHonoured(stamp, legacy) <==> forall problem :: !Wrong(problem, stamp, legacy)
  {
    if forall problem :: !Wrong(problem, stamp, legacy) {
      assert !Wrong(FingerprintProblem, stamp, legacy) && !Wrong(GenerationProblem, stamp, legacy);
      assert !Wrong(BackendProblem, stamp, legacy) && !Wrong(DimProblem, stamp, legacy);
      assert !Wrong(SpaceProblem, stamp, legacy);
    }
  }

  /** Every field is what the old guard compares against, so the token is that of the legacy contract itself. */
  predicate StampHonoured(stamp: Stamp, legacy: Legacy) {
    && stamp.fingerprint == legacy.canonical
    && legacy.hash(legacy.canonical) != "" && stamp.generation == Some(legacy.hash(legacy.canonical))
    && stamp.backend == Some(legacy.backend) && stamp.dim == Some(legacy.dim) && stamp.space == Some(legacy.space)
  }

  // ── the gates ──────────────────────────────────────────────────────────────

  function BucketOf(excluded: map<Id, Reason>, id: Id): Bucket {
    if id !in excluded then IdSet else
      match excluded[id]
      case SupersededRow => Correction
      case DirtyRow => Correction
      case SuppressedRow => Forget
      case UnownedRow => IdSet
  }

  function WantedOf(expected: map<Id, string>, tenant: string): set<Id> {
    set id | id in expected && expected[id] == tenant
  }

  function ServedOf(points: map<Id, Point>, tenant: string): set<Id> {
    set id | id in points && TenantOf(points[id]) == tenant
  }

  function Each(bucket: Bucket, ids: set<Id>): (findings: set<Finding>)
    ensures forall f :: f in findings <==> f.PointFinding? && f.bucket == bucket && f.id in ids
    ensures findings == {} <==> ids == {}
  {
    var findings := set id | id in ids :: PointFinding(bucket, id);
    assert forall id :: id in ids ==> PointFinding(bucket, id) in findings;
    findings
  }

  lemma NothingLeft(a: set<Id>, b: set<Id>)
    ensures a - b == {} <==> a <= b
  {
    if a - b == {} {
      forall id | id in a ensures id in b { assert id !in a - b; }
    }
  }

  /** The probe of a tenant fails when it serves points but not the first one expected of it. */
  predicate ProbeBreaks(points: map<Id, Point>, wanted: set<Id>, tenant: string) {
    wanted != {} && ServedOf(points, tenant) != {} && Least(wanted) !in points
  }

  /** That is: some point is of the tenant, and the least of the expected ids is nowhere in the store. */
  lemma ProbeBreaksIff(points: map<Id, Point>, wanted: set<Id>, tenant: string)
    ensures ProbeBreaks(points, wanted, tenant) <==>
              && (exists id :: id in points && TenantOf(points[id]) == tenant)
              && exists first :: first in wanted && first !in points && forall id :: id in wanted ==> first <= id
  {
    if exists id :: id in points && TenantOf(points[id]) == tenant {
      var id :| id in points && TenantOf(points[id]) == tenant;
      assert id in ServedOf(points, tenant);
    }
  }

  /** A served point is clean when it is expected, under the expected tenant, at the legacy token. */
  predicate PointClean(id: Id, p: Point, expected: map<Id, string>, token: string) {
    id in expected && TenantOf(p) == expected[id] && p.generation == Some(token)
  }

  /** What one served point is reported under. */
  predicate PointReported(bucket: Bucket, id: Id, points: map<Id, Point>, expected: map<Id, string>,
                          excluded: map<Id, Reason>, token: string) {
    id in points &&
    if id !in expected then bucket == BucketOf(excluded, id)
    else
      || (bucket == TenantIsolation && TenantOf(points[id]) != expected[id])
      || (bucket == FingerprintBucket && points[id].generation != Some(token))
  }

  method CheckPoints(points: map<Id, Point>, expected: map<Id, string>, excluded: map<Id, Reason>, token: string)
    returns (findings: set<Finding>)
    ensures forall f :: f in findings <==>
              f.PointFinding? && PointReported(f.bucket, f.id, points, expected, excluded, token)
    ensures findings == {} <==> forall id :: id in points ==> PointClean(id, points[id], expected, token)
  {
    findings := {};
    var todo := points.Keys;
    while todo != {}
      invariant todo <= points.Keys
      invariant forall f :: f in findings <==>
                  f.PointFinding? && f.id !in todo && PointReported(f.bucket, f.id, points, expected, excluded, token)
      invariant findings == {}
                <==> forall id :: id in points && id !in todo ==> PointClean(id, points[id], expected, token)
    {
      var id :| id in todo;
      todo := todo - {id};
      if id !in expected {
        findings := findings + {PointFinding(BucketOf(excluded, id), id)};
      } else {
        if TenantOf(points[id]) != expected[id] {
          findings := findings + {PointFinding(TenantIsolation, id)};
        }
        if points[id].generation != Some(token) {
          findings := findings + {PointFinding(FingerprintBucket, id)};
        }
      }
    }
  }

  /** What one tenant's check reports of an id. */
  predicate TenantReported(bucket: Bucket, id: Id, points: map<Id, Point>, wanted: set<Id>, tenant: string,
                           answer: set<Id>) {
    || (bucket == IdSet && (id in wanted <==> id !in ServedOf(points, tenant)))
    || (bucket == TenantIsolation && ServedOf(points, tenant) != {} && id in answer && id !in wanted)
  }

  /** Per tenant: missing and extra ids, then the store's own tenant filter probed with the vector of the tenant's
      first expected id. `answer` is what the store returns for that scoped query. */
  method CheckTenant(points: map<Id, Point>, wanted: set<Id>, tenant: string, answer: set<Id>)
    returns (outcome: GateOutcome)
    requires wanted != {}
    ensures outcome.Raised? <==> ProbeBreaks(points, wanted, tenant)
    ensures outcome.Findings? ==> forall f :: f in outcome.findings <==>
              f.PointFinding? && TenantReported(f.bucket, f.id, points, wanted, tenant, answer)
    ensures outcome == Findings({}) <==> ServedOf(points, tenant) == wanted && answer <= wanted
  {
    var have := ServedOf(points, tenant);
    var findings := Each(IdSet, wanted - have) + Each(IdSet, have - wanted);
    assert findings == {} <==> have == wanted;
    if have != {} {
      if Least(wanted) !in points {
        return Raised;  // the probe's embedding list is empty
      }
      findings := findings + Each(TenantIsolation, answer - wanted);
      NothingLeft(answer, wanted);
    }
    return Findings(findings);
  }

  /** What the gate is about: the store is the expected one, tenant for tenant and token for token. */
  ghost predicate StoreAsExpected(memory: Store, chunks: map<Id, Store>, expected: map<Id, string>,
                                  chunkExpected: map<Id, set<Id>>, token: string, legacy: Legacy)
    requires chunkExpected.Keys <= chunks.Keys
  {
    && StampHonoured(memory.stamp, legacy)
    && memory.points.Keys == expected.Keys
    && (forall id :: id in expected ==>
          TenantOf(memory.points[id]) == expected[id] && memory.points[id].generation == Some(token))
    && forall name :: name in chunkExpected ==>
         StampHonoured(chunks[name].stamp, legacy) && chunks[name].points.Keys == chunkExpected[name]
  }

  /** A tenant-scoped query of the store returns only that tenant's expected ids. */
  ghost predicate FiltersHold(expected: map<Id, string>, answers: map<string, set<Id>>)
    requires expected.Values <= answers.Keys
  {
    forall tenant :: tenant in expected.Values ==> answers[tenant] <= WantedOf(expected, tenant)
  }

  method StampFindings(collection: Option<Id>, stamp: Stamp, legacy: Legacy) returns (findings: set<Finding>)
    ensures forall f :: f in findings <==>
              f.StampFinding? && f.collection == collection && Wrong(f.problem, stamp, legacy)
    ensures findings == {} <==> StampHonoured(stamp, legacy)
  {
    var problems := ContractFindings(stamp, legacy);
    findings := set problem | problem in problems :: StampFinding(collection, problem);
    assert forall problem :: problem in problems ==> StampFinding(collection, problem) in findings;
  }

  ghost predicate TenantsReported(bucket: Bucket, id: Id, points: map<Id, Point>, expected: map<Id, string>,
                                  tenants: set<string>, answers: map<string, set<Id>>)
    requires tenants <= answers.Keys
  {
    exists tenant :: tenant in tenants
                     && TenantReported(bucket, id, points, WantedOf(expected, tenant), tenant, answers[tenant])
  }

  method CheckTenants(points: map<Id, Point>, expected: map<Id, string>, answers: map<string, set<Id>>)
    returns (outcome: GateOutcome)
    requires expected.Values <= answers.Keys
    ensures outcome.Raised? <==>
              exists tenant :: tenant in expected.Values && ProbeBreaks(points, WantedOf(expected, tenant), tenant)
    ensures outcome.Findings? ==> forall f :: f in outcome.findings <==>
              f.PointFinding? && TenantsReported(f.bucket, f.id, points, expected, expected.Values, answers)
    ensures outcome == Findings({}) <==>
              forall tenant :: tenant in expected.Values ==>
                ServedOf(points, tenant) == WantedOf(expected, tenant) && answers[tenant] <= WantedOf(expected, tenant)
  {
    var findings: set<Finding> := {};
    var todo := expected.Values;
    while todo != {}
      invariant todo <= expected.Values
      invariant forall tenant :: tenant in expected.Values && tenant !in todo ==>
                  !ProbeBreaks(points, WantedOf(expected, tenant), tenant)
      invariant forall f :: f in findings <==>
                  f.PointFinding? && TenantsReported(f.bucket, f.id, points, expected, expected.Values - todo, answers)
      invariant findings == {} <==> forall tenant :: tenant in expected.Values && tenant !in todo ==>
                  ServedOf(points, tenant) == WantedOf(expected, tenant) && answers[tenant] <= WantedOf(expected, tenant)
    {
      var tenant :| tenant in todo;
      todo := todo - {tenant};
      var id :| id in expected && expected[id] == tenant;
      assert id in WantedOf(expected, tenant);
      var one := CheckTenant(points, WantedOf(expected, tenant), tenant, answers[tenant]);
      if one.Raised? {
        return Raised;
      }
      assert one == Findings({}) <==> one.findings == {};
      findings := findings + one.findings;
    }
    assert expected.Values - todo == expected.Values;
    return Findings(findings);
  }

  /** What the chunk collections are reported for. */
  ghost predicate ChunkReported(f: Finding, chunks: map<Id, Store>, chunkExpected: map<Id, set<Id>>, names: set<Id>,
                                legacy: Legacy)
    requires names <= chunkExpected.Keys <= chunks.Keys
  {
    match f
    case StampFinding(at, problem) => at.Some? && at.value in names && Wrong(problem, chunks[at.value].stamp, legacy)
    case PointFinding(bucket, id) =>
      bucket == Chunks && exists name :: name in names && (id in chunkExpected[name] <==> id !in chunks[name].points)
  }

  method CheckChunks(chunks: map<Id, Store>, chunkExpected: map<Id, set<Id>>, legacy: Legacy)
    returns (findings: set<Finding>)
    requires chunkExpected.Keys <= chunks.Keys
    ensures forall f :: f in findings <==> ChunkReported(f, chunks, chunkExpected, chunkExpected.Keys, legacy)
    ensures findings == {} <==> forall name :: name in chunkExpected ==>
              StampHonoured(chunks[name].stamp, legacy) && chunks[name].points.Keys == chunkExpected[name]
  {
    findings := {};
    var todo := chunkExpected.Keys;
    while todo != {}
      invariant todo <= chunkExpected.Keys
      invariant forall f :: f in findings <==>
                  ChunkReported(f, chunks, chunkExpected, chunkExpected.Keys - todo, legacy)
      invariant findings == {} <==> forall name :: name in chunkExpected && name !in todo ==>
                  StampHonoured(chunks[name].stamp, legacy) && chunks[name].points.Keys == chunkExpected[name]
    {
      var name :| name in todo;
      todo := todo - {name};
      var problems := StampFindings(Some(name), chunks[name].stamp, legacy);
      var have, wanted := chunks[name].points.Keys, chunkExpected[name];
      var differing := Each(Chunks, wanted - have) + Each(Chunks, have - wanted);
      assert differing == {} <==> have == wanted;
      ghost var done := chunkExpected.Keys - todo;
      forall f ensures f in findings + problems + differing <==> ChunkReported(f, chunks, chunkExpected, done, legacy) {
        OneMoreChunk(f, chunks, chunkExpected, done, name, legacy);
      }
      findings := findings + problems + differing;
    }
    assert chunkExpected.Keys - todo == chunkExpected.Keys;
  }

  lemma OneMoreChunk(f: Finding, chunks: map<Id, Store>, chunkExpected: map<Id, set<Id>>, done: set<Id>, name: Id,
                     legacy: Legacy)
    requires done <= chunkExpected.Keys <= chunks.Keys && name in done
    ensures ChunkReported(f, chunks, chunkExpected, done, legacy)
            <==> ChunkReported(f, chunks, chunkExpected, done - {name}, legacy)
                 || ChunkReported(f, chunks, chunkExpected, {name}, legacy)
  {
  }

  /** What the gate reports, bucket by bucket. */
  ghost predicate Reported(f: Finding, memory: Store, chunks: map<Id, Store>, expected: map<Id, string>,
                           excluded: map<Id, Reason>, chunkExpected: map<Id, set<Id>>, answers: map<string, set<Id>>,
                           token: string, legacy: Legacy)
    requires chunkExpected.Keys <= chunks.Keys && expected.Values <= answers.Keys
  {
    var points := memory.points;
    match f
    case StampFinding(at, problem) =>
      if at.None? then Wrong(problem, memory.stamp, legacy)
      else at.value in chunkExpected && Wrong(problem, chunks[at.value].stamp, legacy)
    case PointFinding(Correction, id) =>
      id in points && id in excluded && (excluded[id] == SupersededRow || excluded[id] == DirtyRow)
    case PointFinding(Forget, id) => id in points && id in excluded && excluded[id] == SuppressedRow
    case PointFinding(FingerprintBucket, id) => id in points && id in expected && points[id].generation != Some(token)
    case PointFinding(TenantIsolation, id) =>
      // served under another tenant, or shown to one that it is not expected of
      || (id in points && id in expected && TenantOf(points[id]) != expected[id])
      || exists tenant :: tenant in expected.Values && ServedOf(points, tenant) != {}
                          && id in answers[tenant] && id !in WantedOf(expected, tenant)
    case PointFinding(IdSet, id) =>
      // missing, served to a tenant that does not expect it, or of no row or an unowned one
      || (id in expected && !(id in points && TenantOf(points[id]) == expected[id]))
      || (id in points && TenantOf(points[id]) in expected.Values && id !in WantedOf(expected, TenantOf(points[id])))
      || (id in points && id !in expected && id !in excluded)
      || (id in points && id in excluded && excluded[id] == UnownedRow)
    case PointFinding(Chunks, id) =>
      exists name :: name in chunkExpected && (id in chunkExpected[name] <==> id !in chunks[name].points)
  }

  lemma ReportedIff(f: Finding, memory: Store, chunks: map<Id, Store>, expected: map<Id, string>,
                    excluded: map<Id, Reason>, chunkExpected: map<Id, set<Id>>, answers: map<string, set<Id>>,
                    token: string, legacy: Legacy)
    requires chunkExpected.Keys <= chunks.Keys && expected.Values <= answers.Keys
    ensures Reported(f, memory, chunks, expected, excluded, chunkExpected, answers, token, legacy) <==>
              || (f.StampFinding? && f.collection.None? && Wrong(f.problem, memory.stamp, legacy))
              || (f.PointFinding?
                  && (|| PointReported(f.bucket, f.id, memory.points, expected, excluded, token)
                      || (f.id in excluded && f.id in memory.points && f.bucket == BucketOf(excluded, f.id))
                      || TenantsReported(f.bucket, f.id, memory.points, expected, expected.Values, answers)))
              || ChunkReported(f, chunks, chunkExpected, chunkExpected.Keys, legacy)
  {
    hide Wrong;
    if f.PointFinding? && f.bucket == IdSet { IdSetOverTenants(f.id, memory.points, expected, answers); }
  }

  lemma IdSetOverTenants(id: Id, points: map<Id, Point>, expected: map<Id, string>, answers: map<string, set<Id>>)
    requires expected.Values <= answers.Keys
    ensures TenantsReported(IdSet, id, points, expected, expected.Values, answers) <==>
              || (id in expected && !(id in points && TenantOf(points[id]) == expected[id]))
              || (id in points && TenantOf(points[id]) in expected.Values && id !in WantedOf(expected, TenantOf(points[id])))
  {
    if id in expected && !(id in points && TenantOf(points[id]) == expected[id]) {
      assert TenantReported(IdSet, id, points, WantedOf(expected, expected[id]), expected[id], answers[expected[id]]);
    }
    if id in points && TenantOf(points[id]) in expected.Values && id !in WantedOf(expected, TenantOf(points[id])) {
      var tenant := TenantOf(points[id]);
      assert TenantReported(IdSet, id, points, WantedOf(expected, tenant), tenant, answers[tenant]);
    }
  }

  /** All fixture gates. An excluded row that is served is reported whatever else holds. */
  method GateFindings(memory: Store, chunks: map<Id, Store>, expected: map<Id, string>, excluded: map<Id, Reason>,
                      chunkExpected: map<Id, set<Id>>, answers: map<string, set<Id>>, token: string, legacy: Legacy)
    returns (outcome: GateOutcome)
    requires chunkExpected.Keys <= chunks.Keys && expected.Values <= answers.Keys
    ensures outcome.Findings? ==> forall f :: f in outcome.findings <==>
              Reported(f, memory, chunks, expected, excluded, chunkExpected, answers, token, legacy)
    ensures outcome.Raised? <==>
              exists tenant :: tenant in expected.Values && ProbeBreaks(memory.points, WantedOf(expected, tenant), tenant)
    ensures outcome == Findings({}) <==>
              && StoreAsExpected(memory, chunks, expected, chunkExpected, token, legacy)
              && FiltersHold(expected, answers)
              && excluded.Keys !! expected.Keys
  {
    hide StampHonoured, PointClean, ServedOf, WantedOf, ProbeBreaks, Reported, PointReported, TenantsReported,
         ChunkReported, Wrong;
    var stamp := StampFindings(None, memory.stamp, legacy);
    var points := CheckPoints(memory.points, expected, excluded, token);
    var present := set id | id in excluded && id in memory.points :: PointFinding(BucketOf(excluded, id), id);
    assert present == {} <==> excluded.Keys !! memory.points.Keys by {
      forall id | id in excluded && id in memory.points ensures PointFinding(BucketOf(excluded, id), id) in present {
      }
    }
    var tenants := CheckTenants(memory.points, expected, answers);
    GateMeaning(memory, chunks, expected, chunkExpected, answers, token, legacy);
    if tenants.Raised? {
      return Raised;
    }
    var chunk := CheckChunks(chunks, chunkExpected, legacy);
    assert tenants == Findings({}) <==> tenants.findings == {};
    var all := stamp + points + present + tenants.findings + chunk;
    forall f
      ensures f in all <==> Reported(f, memory, chunks, expected, excluded, chunkExpected, answers, token, legacy)
    {
      ReportedIff(f, memory, chunks, expected, excluded, chunkExpected, answers, token, legacy);
    }
    return Findings(all);
  }

  /** The single checks together are the store map being the expected map. */
  lemma GateMeaning(memory: Store, chunks: map<Id, Store>, expected: map<Id, string>,
                    chunkExpected: map<Id, set<Id>>, answers: map<string, set<Id>>, token: string, legacy: Legacy)
    requires chunkExpected.Keys <= chunks.Keys && expected.Values <= answers.Keys
    ensures StoreAsExpected(memory, chunks, expected, chunkExpected, token, legacy)
            && FiltersHold(expected, answers) <==>
              && StampHonoured(memory.stamp, legacy)
              && (forall id :: id in memory.points ==> PointClean(id, memory.points[id], expected, token))
              && (forall tenant :: tenant in expected.Values ==>
                    ServedOf(memory.points, tenant) == WantedOf(expected, tenant) && answers[tenant] <= WantedOf(expected, tenant))
              && (forall name :: name in chunkExpected ==>
                    StampHonoured(chunks[name].stamp, legacy) && chunks[name].points.Keys == chunkExpected[name])
  {
    hide StampHonoured;
    if (forall id :: id in memory.points ==> PointClean(id, memory.points[id], expected, token))
       && (forall tenant :: tenant in expected.Values ==> ServedOf(memory.points, tenant) == WantedOf(expected, tenant)) {
      forall id | id in expected ensures id in memory.points {
        assert expected[id] in expected.Values;
        assert id in WantedOf(expected, expected[id]);
      }
    }
  }

  // ── the rebuild the gates are run on ───────────────────────────────────────

  /** The rows served, page after page, upserted into an empty collection. */
  method RebuildMemory(ids: seq<Id>, expected: map<Id, string>, token: string, batch: int)
    returns (points: map<Id, Point>)
    requires batch >= 1 && Elements(ids) == expected.Keys
    ensures points == map id | id in expected :: Point(expected[id], Some(token))
  {
    points := map[];
    var start := 0;
    while start < |ids|
      invariant 0 <= start
      invariant points == map id | id in ids[..if start < |ids| then start else |ids|] :: Point(expected[id], Some(token))
    {
      var stop := if start + batch < |ids| then start + batch else |ids|;
      for i := start to stop
        invariant points == map id | id in ids[..i] :: Point(expected[id], Some(token))
      {
        points := points[ids[i] := Point(expected[ids[i]], Some(token))];
        assert ids[..i + 1] == ids[..i] + [ids[i]];
      }
      start := start + batch;
    }
    assert ids[..|ids|] == ids;
  }

  function ExpectedMemories(sql: Sql): map<Id, string> {
    var rows := SqlRows(sql, Memory);
    map id | id in Eligible(rows) :: sql.memories[id].owner
  }

  /** Reasons of both kinds in one map, the chunks' written over the memories'. */
  function ExcludedRows(sql: Sql): map<Id, Reason> {
    var memories, chunks := SqlRows(sql, Memory), SqlRows(sql, Chunk);
    (map id | id in memories && memories[id].reason.Some? :: memories[id].reason.value)
    + (map id | id in chunks && chunks[id].reason.Some? :: chunks[id].reason.value)
  }

  /** The eligible chunks, grouped by conversation. */
  function ExpectedChunks(sql: Sql): map<Id, set<Id>> {
    var eligible := Eligible(SqlRows(sql, Chunk));
    map cid | cid in (set id | id in eligible && sql.chunks[id].conversation.Some? :: sql.chunks[id].conversation.value) ::
      set id | id in eligible && sql.chunks[id].conversation == Some(cid)
  }

  /** A point without a user counts as of the tenant "unknown". */
  lemma TenantIs(p: Point)
    ensures TenantOf(p) == "unknown" <==> p.user == "" || p.user == "unknown"
    ensures p.user != "" ==> TenantOf(p) == p.user
  {
  }

  /** What a rebuild is to hold, over the tables: each memory that is served, under its owner; each served chunk in its
      own conversation's collection; and as excluded every other row of either kind, a chunk's reason over a memory's. */
  lemma ExpectedAre(sql: Sql, id: Id, cid: Id)
    ensures id in ExpectedMemories(sql) <==> MemoryServed(sql, id)
    ensures id in ExpectedMemories(sql) ==> ExpectedMemories(sql)[id] == sql.memories[id].owner
    ensures cid in ExpectedChunks(sql) ==>
              (id in ExpectedChunks(sql)[cid] <==> ChunkServed(sql, id) && sql.chunks[id].conversation.value == cid)
    ensures ChunkServed(sql, id) ==> sql.chunks[id].conversation.value in ExpectedChunks(sql)
    ensures id in ExcludedRows(sql) <==>
              (id in sql.memories && !MemoryServed(sql, id)) || (id in sql.chunks && !ChunkServed(sql, id))
    ensures id in ExcludedRows(sql) ==>
              ExcludedRows(sql)[id] == (if id in sql.chunks && !ChunkServed(sql, id) then UnownedRow
                                        else if sql.memories[id].supersededBy then SupersededRow
                                        else if sql.memories[id].derivedDirty then DirtyRow else SuppressedRow)
  {
    EligibleIsServed(sql, Memory, id);
    EligibleIsServed(sql, Chunk, id);
    ReasonsOf(sql, id);
    var eligible := Eligible(SqlRows(sql, Chunk));
    if ChunkServed(sql, id) {
      assert id in eligible && sql.chunks[id].conversation.Some?;
      var cids := set x | x in eligible && sql.chunks[x].conversation.Some? :: sql.chunks[x].conversation.value;
      assert sql.chunks[id].conversation.value in cids;
    }
  }

  function LegacyStamp(legacy: Legacy): Stamp {
    Stamp(legacy.canonical, Some(legacy.hash(legacy.canonical)), Some(legacy.backend), Some(legacy.dim), Some(legacy.space))
  }

  function RebuiltMemory(sql: Sql, legacy: Legacy): Store {
    Store(LegacyStamp(legacy),
          map id | id in ExpectedMemories(sql) :: Point(ExpectedMemories(sql)[id], Some(legacy.hash(legacy.canonical))))
  }

  function RebuiltChunks(sql: Sql, legacy: Legacy): map<Id, Store> {
    map cid | cid in ExpectedChunks(sql) ::
      Store(LegacyStamp(legacy), map id | id in ExpectedChunks(sql)[cid] :: Point("", None))
  }

  /** A rebuild passes its own gates exactly when no excluded chunk shares its id with a served memory:
      both kinds' exclusions are merged into one map before they are looked up among the memories. */
  lemma RebuildIsReadyIff(sql: Sql, legacy: Legacy, answers: map<string, set<Id>>)
    requires legacy.hash(legacy.canonical) != "" && forall id :: id in sql.memories ==> sql.memories[id].owner != ""
    requires ExpectedMemories(sql).Values <= answers.Keys
    requires forall tenant :: tenant in ExpectedMemories(sql).Values ==>
               answers[tenant] == set id | id in RebuiltMemory(sql, legacy).points
                                             && RebuiltMemory(sql, legacy).points[id].user == tenant
    ensures (StoreAsExpected(RebuiltMemory(sql, legacy), RebuiltChunks(sql, legacy), ExpectedMemories(sql), ExpectedChunks(sql),
                             legacy.hash(legacy.canonical), legacy)
             && FiltersHold(ExpectedMemories(sql), answers)
             && ExcludedRows(sql).Keys !! ExpectedMemories(sql).Keys)
            <==> Eligible(SqlRows(sql, Memory)) !! (sql.chunks.Keys - Eligible(SqlRows(sql, Chunk)))
  {
    hide StoreAsExpected, FiltersHold, RebuiltMemory, RebuiltChunks, ExpectedChunks;
    RebuildIsFaithful(sql, legacy, answers);
    var memories, chunks := SqlRows(sql, Memory), SqlRows(sql, Chunk);
    assert ExcludedRows(sql).Keys == (sql.memories.Keys - Eligible(memories)) + (sql.chunks.Keys - Eligible(chunks));
    assert ExpectedMemories(sql).Keys == Eligible(memories);
  }

  lemma RebuildIsFaithful(sql: Sql, legacy: Legacy, answers: map<string, set<Id>>)
    requires legacy.hash(legacy.canonical) != "" && forall id :: id in sql.memories ==> sql.memories[id].owner != ""
    requires ExpectedMemories(sql).Values <= answers.Keys
    requires forall tenant :: tenant in ExpectedMemories(sql).Values ==>
               answers[tenant] == set id | id in RebuiltMemory(sql, legacy).points
                                             && RebuiltMemory(sql, legacy).points[id].user == tenant
    ensures StoreAsExpected(RebuiltMemory(sql, legacy), RebuiltChunks(sql, legacy), ExpectedMemories(sql), ExpectedChunks(sql),
                            legacy.hash(legacy.canonical), legacy)
    ensures FiltersHold(ExpectedMemories(sql), answers)
  {
    forall id | id in ExpectedMemories(sql) ensures TenantOf(RebuiltMemory(sql, legacy).points[id]) == ExpectedMemories(sql)[id] {
      assert id in sql.memories;
    }
    forall cid | cid in ExpectedChunks(sql) ensures RebuiltChunks(sql, legacy)[cid].points.Keys == ExpectedChunks(sql)[cid] {
    }
  }

  // ── the emitted copy's manifest ────────────────────────────────────────────

  datatype Targets = Targets(memory: string, chunk: string)

  function TargetName(targets: Targets, kind: Kind): string {
    match kind
    case Memory => targets.memory
    case Chunk => targets.chunk
  }

  predicate OnTarget(targets: Targets, k: Key) { k.generation == TargetName(targets, k.kind) }

  /** DELETE keeps a row of one kind that names the other kind's target: it compares with both names at once. */
  function AfterDelete(rows: Rows, targets: Targets): Rows {
    map k | k in rows && k.generation in {targets.memory, targets.chunk} :: rows[k]
  }

  function Stamped(rows: Rows, targets: Targets, token: string): Rows {
    map k | k in AfterDelete(rows, targets).Keys + {Key(Memory, targets.memory), Key(Chunk, targets.chunk)} ::
      if OnTarget(targets, k) then Entry(token, true) else rows[k]
  }

  class EmittedCopy {
    var rows: Rows

    method StampManifest(targets: Targets, token: string)
      modifies this
      ensures rows == Stamped(old(rows), targets, token)
    {
      rows := AfterDelete(rows, targets);
      ghost var kept := rows;
      for i := 0 to |KINDS|
        invariant i == 0 ==> rows == kept
        invariant i == 1 ==> rows == kept[Key(Memory, targets.memory) := Entry(token, true)]
        invariant i == 2 ==>
                    rows == kept[Key(Memory, targets.memory) := Entry(token, true)]
                                [Key(Chunk, targets.chunk) := Entry(token, true)]
      {
        var key := Key(KINDS[i], TargetName(targets, KINDS[i]));
        if key !in rows {
          rows := rows[key := Entry(token, true)];
        } else {
          rows := rows[key := rows[key].(fingerprint := token, active := true)];
        }
      }
    }
  }

  /** The rows of one kind. */
  function RowsOfKind(rows: Rows, kind: Kind): set<Key> { set k | k in rows && k.kind == kind }

  /** The stamp leaves exactly one row per kind, active at the legacy token, exactly when no row paired a kind
      with the other kind's (different) target name; a leftover of that shape survives as it was. */
  lemma OneRowPerKindIff(rows: Rows, targets: Targets, token: string)
    ensures (forall kind :: RowsOfKind(Stamped(rows, targets, token), kind) == {Key(kind, TargetName(targets, kind))}) <==>
            (targets.memory != targets.chunk ==> Key(Memory, targets.chunk) !in rows && Key(Chunk, targets.memory) !in rows)
    ensures forall kind :: Key(kind, TargetName(targets, kind)) in Stamped(rows, targets, token)
                           && Stamped(rows, targets, token)[Key(kind, TargetName(targets, kind))] == Entry(token, true)
    ensures forall k :: k in Stamped(rows, targets, token) && !OnTarget(targets, k) ==>
              k in rows && Stamped(rows, targets, token)[k] == rows[k]
  {
    var after := Stamped(rows, targets, token);
    forall kind
      ensures Key(kind, TargetName(targets, kind)) in after
      ensures after[Key(kind, TargetName(targets, kind))] == Entry(token, true)
    {
      match kind case Memory => case Chunk =>
    }
    var crossM, crossC := Key(Memory, targets.chunk), Key(Chunk, targets.memory);
    if forall kind :: RowsOfKind(after, kind) == {Key(kind, TargetName(targets, kind))} {
      if targets.memory != targets.chunk {
        assert crossM in rows ==> crossM in RowsOfKind(after, Memory);
        assert crossC in rows ==> crossC in RowsOfKind(after, Chunk);
      }
    }
    if targets.memory != targets.chunk ==> crossM !in rows && crossC !in rows {
      forall kind ensures RowsOfKind(after, kind) == {Key(kind, TargetName(targets, kind))} {
        forall k | k in after && k.kind == kind ensures k == Key(kind, TargetName(targets, kind)) {
          match kind case Memory => case Chunk =>
        }
      }
    }
  }
}
