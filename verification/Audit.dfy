/** The read-side audit of one physical collection against the SQL rows, and the verify gate built on it. */
module Audit {
  import opened Common
  import opened Manifest
  import opened Eligibility

  /** A payload's revision field, any JSON value: absent (or null), a whole number, a number with a fraction or an
      exponent, true or false, text (`asInt` is what int(...) makes of it), or a list or object. */
  datatype Revision = Missing | Number(n: int) | Fraction(x: real) | Flag(b: bool)
                    | Text(empty: bool, asInt: Option<int>) | Composite(empty: bool)

  /** What the audit reads of a payload. `identity` is the parsed memory_id or chunk_id, `tenant` is "" when
      absent, `fingerprint` is the canonical contract, `token` the contract token (memories carry both). */
  datatype Payload = Payload(identity: Option<Id>, tenant: string, revision: Revision,
                             fingerprint: Option<string>, token: Option<string>)

  type Collection = map<Id, Payload>

  predicate ContractOk(kind: Kind, p: Payload, c: Contract) {
    match kind
    case Memory => p.token == Some(c.token) && c.token != "" && p.fingerprint == Some(c.canonical)
    case Chunk => p.fingerprint == Some(c.canonical) && c.canonical != ""
  }

  /** int(x) of a fraction cuts it off towards zero. */
  function Truncated(x: real): int { if x < 0.0 then -((-x).Floor) else x.Floor }

  /** int(payload.get(key) or -1): whatever is falsy reads as -1; text that is no number and a list or object that is
      not empty raise. */
  function RevisionRead(r: Revision): Option<int> {
    match r
    case Missing => Some(-1)
    case Number(n) => Some(if n == 0 then -1 else n)
    case Fraction(x) => Some(if x == 0.0 then -1 else Truncated(x))
    case Flag(b) => Some(if b then 1 else -1)
    case Text(empty, asInt) => if empty then Some(-1) else asInt
    case Composite(empty) => if empty then Some(-1) else None
  }

  /** Value by value what the reading makes of a revision field. */
  lemma RevisionReads(r: Revision, n: int)
    ensures RevisionRead(Missing) == RevisionRead(Number(0)) == RevisionRead(Flag(false)) == Some(-1)
    ensures RevisionRead(Fraction(0.0)) == RevisionRead(Composite(true)) == Some(-1) && RevisionRead(Composite(false)) == None
    ensures n != 0 ==> RevisionRead(Number(n)) == Some(n)
    ensures RevisionRead(Flag(true)) == Some(1)
    ensures r.Text? ==> RevisionRead(r) == if r.empty then Some(-1) else r.asInt
    ensures r.Fraction? && r.x > 0.0 ==> (RevisionRead(r) == Some(n) <==> n as real <= r.x < n as real + 1.0)
    ensures r.Fraction? && r.x < 0.0 ==> (RevisionRead(r) == Some(n) <==> n as real - 1.0 < r.x <= n as real)
  {
    if r.Fraction? && r.x < 0.0 {
      assert (-r.x).Floor == -n <==> (-n) as real <= -r.x < (-n) as real + 1.0;
    }
  }

  function TenantText(record: Record): string {
    if record.tenant.Some? then record.tenant.value else ""
  }

  datatype Findings = Findings(points: nat, missing: seq<Id>, stale: seq<Id>, orphan: seq<Id>, excludedPresent: seq<Id>,
                               unknownFingerprint: seq<Id>, malformed: seq<Id>, tenantMismatch: seq<Id>)

  datatype AuditOutcome = Audited(findings: Findings) | Raised

  // ── what each finding means ────────────────────────────────────────────────

  predicate Named(id: Id, p: Payload) { p.identity == Some(id) }

  predicate Wanted(id: Id, rows: map<Id, Record>) { id in rows && rows[id].reason.None? }

  predicate IsStale(id: Id, p: Payload, rows: map<Id, Record>) {
    Named(id, p) && Wanted(id, rows) && RevisionRead(p.revision) != Some(rows[id].revision)
  }

  predicate IsForeign(id: Id, p: Payload, rows: map<Id, Record>) {
    Named(id, p) && Wanted(id, rows) && p.tenant != TenantText(rows[id])
  }

  /** A point whose revision cannot be read ends the whole audit with an exception. */
  predicate Breaks(id: Id, p: Payload, rows: map<Id, Record>) {
    Named(id, p) && Wanted(id, rows) && RevisionRead(p.revision).None?
  }

  /** The findings over the points of `seen`, each listed exactly in its own list. */
  ghost predicate Reports(f: Findings, seen: set<Id>, kind: Kind, points: Collection, rows: map<Id, Record>,
                          c: Contract)
    requires seen <= points.Keys
  {
    && (forall id :: id in f.malformed <==> id in seen && !Named(id, points[id]))
    && (forall id :: id in f.unknownFingerprint <==> id in seen && Named(id, points[id]) && !ContractOk(kind, points[id], c))
    && (forall id :: id in f.orphan <==> id in seen && Named(id, points[id]) && id !in rows)
    && (forall id :: id in f.excludedPresent <==> id in seen && Named(id, points[id]) && id in rows && rows[id].reason.Some?)
    && (forall id :: id in f.stale <==> id in seen && IsStale(id, points[id], rows))
    && (forall id :: id in f.tenantMismatch <==> id in seen && IsForeign(id, points[id], rows))
  }

  function Plus(list: seq<Id>, when: bool, id: Id): (longer: seq<Id>)
    ensures forall x :: x in longer <==> x in list || (when && x == id)
  {
    if when then list + [id] else list
  }

  /** The findings after one more point, list by list. */
  function Noted(f: Findings, kind: Kind, id: Id, p: Payload, rows: map<Id, Record>, c: Contract): Findings {
    Findings(f.points, f.missing,
             Plus(f.stale, IsStale(id, p, rows), id),
             Plus(f.orphan, Named(id, p) && id !in rows, id),
             Plus(f.excludedPresent, Named(id, p) && id in rows && rows[id].reason.Some?, id),
             Plus(f.unknownFingerprint, Named(id, p) && !ContractOk(kind, p, c), id),
             Plus(f.malformed, !Named(id, p), id),
             Plus(f.tenantMismatch, IsForeign(id, p, rows), id))
  }

  lemma NotedReports(f: Findings, seen: set<Id>, kind: Kind, points: Collection, rows: map<Id, Record>, c: Contract,
                     id: Id)
    requires seen <= points.Keys && id in points
    requires Reports(f, seen, kind, points, rows, c)
    ensures Reports(Noted(f, kind, id, points[id], rows, c), seen + {id}, kind, points, rows, c)
  {
  }

  /** Classify one scrolled point. */
  method Classify(f: Findings, kind: Kind, id: Id, p: Payload, rows: map<Id, Record>, c: Contract)
    returns (outcome: AuditOutcome)
    ensures outcome == if Breaks(id, p, rows) then Raised else Audited(Noted(f, kind, id, p, rows, c))
  {
    var g := f;
    if !Named(id, p) {
      // Quarantined: a point that cannot be named is not classified further.
      return Audited(g.(malformed := g.malformed + [id]));
    }
    if !ContractOk(kind, p, c) {
      g := g.(unknownFingerprint := g.unknownFingerprint + [id]);
    }
    if id !in rows {
      g := g.(orphan := g.orphan + [id]);
    } else if rows[id].reason.Some? {
      g := g.(excludedPresent := g.excludedPresent + [id]);
    } else {
      var revision := RevisionRead(p.revision);
      if revision.None? {
        return Raised;
      }
      if revision.value != rows[id].revision {
        g := g.(stale := g.stale + [id]);
      }
      if p.tenant != TenantText(rows[id]) {
        g := g.(tenantMismatch := g.tenantMismatch + [id]);
      }
    }
    return Audited(g);
  }

  /** Scroll every point, in whatever order the store returns them. */
  method ScanPoints(kind: Kind, points: Collection, rows: map<Id, Record>, c: Contract)
    returns (outcome: AuditOutcome, seen: set<Id>)
    ensures outcome.Raised? <==> exists id :: id in points && Breaks(id, points[id], rows)
    ensures outcome.Audited? ==> seen == points.Keys && Reports(outcome.findings, points.Keys, kind, points, rows, c)
  {
    hide Noted, Reports, Breaks;
    var f := Findings(0, [], [], [], [], [], [], []);
    NothingSeen(f, kind, points, rows, c);
    var todo := points.Keys;
    seen := {};
    while todo != {}
      invariant todo !! seen && todo + seen == points.Keys
      invariant Reports(f, seen, kind, points, rows, c)
      invariant forall id :: id in seen ==> !Breaks(id, points[id], rows)
    {
      var id :| id in todo;
      outcome := Classify(f, kind, id, points[id], rows, c);
      if outcome.Raised? {
        return;
      }
      NotedReports(f, seen, kind, points, rows, c, id);
      f, todo, seen := outcome.findings, todo - {id}, seen + {id};
    }
    assert seen == points.Keys;
    outcome := Audited(f);
  }

  /** One full pass over the collection, then the eligible rows it never saw. */
  method AuditCollection(kind: Kind, points: Collection, rows: map<Id, Record>, c: Contract)
    returns (outcome: AuditOutcome)
    ensures outcome.Raised? <==> exists id :: id in points && Breaks(id, points[id], rows)
    ensures outcome.Audited? ==>
              && Reports(outcome.findings, points.Keys, kind, points, rows, c)
              && outcome.findings.points == |points|
              && outcome.findings.missing == Sorted(Eligible(rows) - points.Keys)
  {
    hide Sorted, Eligible, Breaks, Reports;
    var seen;
    outcome, seen := ScanPoints(kind, points, rows, c);
    if outcome.Audited? {
      assert |points| == |points.Keys|;
      CountsAside(outcome.findings, |seen|, Sorted(Eligible(rows) - seen), kind, points, rows, c);
      outcome := Audited(outcome.findings.(points := |seen|, missing := Sorted(Eligible(rows) - seen)));
    }
  }

  lemma CountsAside(f: Findings, n: nat, missing: seq<Id>, kind: Kind, points: Collection, rows: map<Id, Record>,
                    c: Contract)
    requires Reports(f, points.Keys, kind, points, rows, c)
    ensures Reports(f.(points := n, missing := missing), points.Keys, kind, points, rows, c)
  {
  }

  lemma NothingSeen(f: Findings, kind: Kind, points: Collection, rows: map<Id, Record>, c: Contract)
    requires f == Findings(0, [], [], [], [], [], [], [])
    ensures Reports(f, {}, kind, points, rows, c)
  {
  }
}

/** The verify gate: manifest row plus audit, and what a green report means. */
module Verify {
  import opened Common
  import opened Manifest
  import opened Eligibility
  import opened Audit

  datatype Report = Report(ok: bool, noManifestRow: bool, sqlEligible: nat, points: nat, missing: seq<Id>,
                           staleRevision: seq<Id>, manifestFingerprint: bool, fingerprint: seq<Id>,
                           absence: seq<Id>, tenantMismatch: seq<Id>, malformed: seq<Id>)

  datatype VerifyOutcome = Reported(report: Report) | Broke

  predicate ManifestCurrent(kind: Kind, manifest: Rows, c: Contract) {
    Target(kind, c) in manifest && manifest[Target(kind, c)].fingerprint == c.token
  }

  /** The point is the row's own vector: named, of this contract, at the row's revision, under its tenant. */
  predicate Faithful(kind: Kind, id: Id, p: Payload, record: Record, c: Contract) {
    p.identity == Some(id) && ContractOk(kind, p, c) && p.revision == Number(record.revision) && p.tenant == TenantText(record)
  }

  /** The collection is the eligible rows, point for row. */
  ghost predicate Exact(kind: Kind, points: Collection, rows: map<Id, Record>, c: Contract) {
    points.Keys == Eligible(rows) && forall id :: id in points ==> Faithful(kind, id, points[id], rows[id], c)
  }

  /** The audit has nothing to say about this point of this row. */
  predicate Accepted(kind: Kind, id: Id, p: Payload, record: Record, c: Contract) {
    p.identity == Some(id) && ContractOk(kind, p, c) && RevisionRead(p.revision) == Some(record.revision)
    && p.tenant == TenantText(record)
  }

  /** Exactness as the audit can see it, through its reading of the revision field. */
  ghost predicate ReadsExact(kind: Kind, points: Collection, rows: map<Id, Record>, c: Contract) {
    points.Keys == Eligible(rows) && forall id :: id in points ==> Accepted(kind, id, points[id], rows[id], c)
  }

  /** No list is reported: an unknown contract counts only on a row that should be there. */
  predicate Clean(f: Findings, eligible: set<Id>) {
    && f.missing == [] && f.stale == [] && f.orphan == [] && f.excludedPresent == []
    && f.tenantMismatch == [] && f.malformed == []
    && forall id :: id in f.unknownFingerprint ==> id !in eligible
  }

  lemma ReadsExactIsClean(kind: Kind, points: Collection, rows: map<Id, Record>, c: Contract, f: Findings)
    requires Reports(f, points.Keys, kind, points, rows, c)
    requires f.missing == Sorted(Eligible(rows) - points.Keys)
    requires ReadsExact(kind, points, rows, c)
    ensures Clean(f, Eligible(rows))
  {
    assert Eligible(rows) - points.Keys == {};
    NothingListed(kind, points, rows, c, f);
  }

  lemma CleanIsReadsExact(kind: Kind, points: Collection, rows: map<Id, Record>, c: Contract, f: Findings)
    requires Reports(f, points.Keys, kind, points, rows, c)
    requires f.missing == Sorted(Eligible(rows) - points.Keys)
    requires Clean(f, Eligible(rows))
    ensures ReadsExact(kind, points, rows, c)
  {
    hide Sorted, ContractOk, RevisionRead, TenantText;
    forall id | id in Eligible(rows) ensures id in points {
      assert id !in Sorted(Eligible(rows) - points.Keys);
    }
    forall id | id in points
      ensures id in Eligible(rows) && points[id].identity == Some(id) && ContractOk(kind, points[id], c)
      ensures RevisionRead(points[id].revision) == Some(rows[id].revision) && points[id].tenant == TenantText(rows[id])
    {
      assert id !in f.malformed && id !in f.orphan && id !in f.excludedPresent;
      assert id !in f.stale && id !in f.tenantMismatch;
    }
  }

  lemma BreakingIsNotExact(kind: Kind, points: Collection, rows: map<Id, Record>, c: Contract)
    requires exists id :: id in points && Breaks(id, points[id], rows)
    ensures !ReadsExact(kind, points, rows, c)
  {
    var id :| id in points && Breaks(id, points[id], rows);
    assert RevisionRead(points[id].revision) == None;
  }

  lemma NothingListed(kind: Kind, points: Collection, rows: map<Id, Record>, c: Contract, f: Findings)
    requires Reports(f, points.Keys, kind, points, rows, c)
    requires ReadsExact(kind, points, rows, c)
    ensures f.stale == [] && f.orphan == [] && f.excludedPresent == [] && f.tenantMismatch == [] && f.malformed == []
    ensures f.unknownFingerprint == []
  {
    Empty(f.stale); Empty(f.orphan); Empty(f.excludedPresent); Empty(f.tenantMismatch);
    Empty(f.malformed); Empty(f.unknownFingerprint);
  }

  lemma Empty(list: seq<Id>)
    ensures (forall id :: id !in list) ==> list == []
  {
    if list != [] { assert list[0] in list; }
  }

  /** The audit of the contract's own generation; a missing collection scrolls no points. */
  method VerifyGeneration(kind: Kind, sql: Sql, manifest: Rows, points: Collection, c: Contract)
    returns (outcome: VerifyOutcome)
    ensures outcome.Reported? && outcome.report.ok <==>
              ManifestCurrent(kind, manifest, c) && ReadsExact(kind, points, SqlRows(sql, kind), c)
    ensures outcome.Broke? <==>
              Target(kind, c) in manifest && exists id :: id in points && Breaks(id, points[id], SqlRows(sql, kind))
    ensures outcome.Reported? ==> (outcome.report.noManifestRow <==> Target(kind, c) !in manifest)
    ensures outcome.Reported? && Target(kind, c) in manifest ==>
              var r := outcome.report;
              && r.points == |points| && r.sqlEligible == |Eligible(SqlRows(sql, kind))|
              && (r.manifestFingerprint <==> manifest[Target(kind, c)].fingerprint != c.token)
              && ListsRight(kind, sql, points, c, r.missing, r.staleRevision, r.fingerprint, r.absence, r.tenantMismatch,
                            r.malformed)
    ensures outcome.Reported? && outcome.report.ok ==>
              outcome.report.points == outcome.report.sqlEligible == |Eligible(SqlRows(sql, kind))|
  {
    hide ReadsExact, Reports, Eligible, SqlRows, Sorted, Breaks, Kept, GenerationName, Clean, ListsRight;
    var rows;
    if kind == Memory { rows := MemoryRows(sql); } else { rows := ChunkRows(sql); }
    var eligible := Eligible(rows);
    if Target(kind, c) !in manifest {
      return Reported(Report(false, true, |eligible|, 0, [], [], false, [], [], [], []));
    }
    var stamped := manifest[Target(kind, c)].fingerprint == c.token;
    var audit := AuditCollection(kind, points, rows, c);
    if audit.Raised? {
      BreakingIsNotExact(kind, points, rows, c);
      return Broke;
    }
    var f := audit.findings;
    var unknown := Kept(f.unknownFingerprint, eligible);
    var absence := Sorted(Elements(f.orphan) + Elements(f.excludedPresent));
    var listed := f.missing != [] || f.stale != [] || f.tenantMismatch != [] || f.malformed != [];
    var clean := !listed && unknown == [] && absence == [];
    CleanAsComputed(f, eligible);
    ListsAreRight(f, kind, sql, points, c, unknown, absence);
    if clean {
      CleanIsReadsExact(kind, points, rows, c, f);
      ReadsExactKeys(kind, points, rows, c);
    } else if ReadsExact(kind, points, rows, c) {
      ReadsExactIsClean(kind, points, rows, c, f);
    }
    return Reported(Report(stamped && clean, false, |eligible|, f.points, f.missing, f.stale, !stamped, unknown, absence,
                           f.tenantMismatch, f.malformed));
  }

  lemma CleanAsComputed(f: Findings, eligible: set<Id>)
    ensures Clean(f, eligible) <==> f.missing == [] && f.stale == [] && Kept(f.unknownFingerprint, eligible) == []
                                    && Sorted(Elements(f.orphan) + Elements(f.excludedPresent)) == []
                                    && f.tenantMismatch == [] && f.malformed == []
  {
    NoElements(f.orphan);
    NoElements(f.excludedPresent);
    assert |Sorted(Elements(f.orphan) + Elements(f.excludedPresent))| == |Elements(f.orphan) + Elements(f.excludedPresent)|;
  }

  /** Which of the report's lists name an id, over the tables themselves. */
  predicate ListedRightly(kind: Kind, sql: Sql, points: Collection, c: Contract, missing: seq<Id>, stale: seq<Id>,
                          fingerprint: seq<Id>, absence: seq<Id>, tenantMismatch: seq<Id>, malformed: seq<Id>, id: Id) {
    var named := id in points && points[id].identity == Some(id);
    && (id in missing <==> Served(sql, kind, id) && id !in points)
    && (id in malformed <==> id in points && points[id].identity != Some(id))
    && (id in absence <==> named && !Served(sql, kind, id))
    && (id in fingerprint <==> named && Served(sql, kind, id) && !ContractOk(kind, points[id], c))
    && (id in stale <==>
          named && Served(sql, kind, id) && RevisionRead(points[id].revision) != Some(RevisionOf(sql, kind, id)))
    && (id in tenantMismatch <==> named && Served(sql, kind, id) && points[id].tenant != OwnerOf(sql, kind, id))
  }

  ghost predicate ListsRight(kind: Kind, sql: Sql, points: Collection, c: Contract, missing: seq<Id>, stale: seq<Id>,
                             fingerprint: seq<Id>, absence: seq<Id>, tenantMismatch: seq<Id>, malformed: seq<Id>) {
    && Ascending(missing) && Ascending(absence)
    && forall id :: ListedRightly(kind, sql, points, c, missing, stale, fingerprint, absence, tenantMismatch, malformed, id)
  }

  lemma ListsAreRight(f: Findings, kind: Kind, sql: Sql, points: Collection, c: Contract, unknown: seq<Id>,
                      absence: seq<Id>)
    requires Reports(f, points.Keys, kind, points, SqlRows(sql, kind), c)
    requires f.missing == Sorted(Eligible(SqlRows(sql, kind)) - points.Keys)
    requires unknown == Kept(f.unknownFingerprint, Eligible(SqlRows(sql, kind)))
    requires absence == Sorted(Elements(f.orphan) + Elements(f.excludedPresent))
    ensures ListsRight(kind, sql, points, c, f.missing, f.stale, unknown, absence, f.tenantMismatch, f.malformed)
  {
    hide SqlRows, Sorted, Reports, Elements, Eligible, ListedRightly;
    forall id
      ensures ListedRightly(kind, sql, points, c, f.missing, f.stale, unknown, absence, f.tenantMismatch, f.malformed, id)
    {
      IdListedRightly(f, kind, sql, points, c, unknown, absence, id);
    }
  }

  lemma IdListedRightly(f: Findings, kind: Kind, sql: Sql, points: Collection, c: Contract, unknown: seq<Id>,
                        absence: seq<Id>, id: Id)
    requires Reports(f, points.Keys, kind, points, SqlRows(sql, kind), c)
    requires f.missing == Sorted(Eligible(SqlRows(sql, kind)) - points.Keys)
    requires unknown == Kept(f.unknownFingerprint, Eligible(SqlRows(sql, kind)))
    requires absence == Sorted(Elements(f.orphan) + Elements(f.excludedPresent))
    ensures ListedRightly(kind, sql, points, c, f.missing, f.stale, unknown, absence, f.tenantMismatch, f.malformed, id)
  {
    hide SqlRows, Sorted, ContractOk, RevisionRead, Served, OwnerOf, RevisionOf, Elements, Reports, Ascending;
    var rows := SqlRows(sql, kind);
    EligibleIsServed(sql, kind, id);
    EitherListed(f.orphan, f.excludedPresent, id);
    ReportedOf(f, kind, points, rows, c, id);
    assert Wanted(id, rows) <==> Served(sql, kind, id);
  }

  lemma ReportedOf(f: Findings, kind: Kind, points: Collection, rows: map<Id, Record>, c: Contract, id: Id)
    requires Reports(f, points.Keys, kind, points, rows, c)
    ensures id in f.malformed <==> id in points && !Named(id, points[id])
    ensures id in f.unknownFingerprint <==> id in points && Named(id, points[id]) && !ContractOk(kind, points[id], c)
    ensures id in f.orphan || id in f.excludedPresent <==> id in points && Named(id, points[id]) && !Wanted(id, rows)
    ensures id in f.stale <==> id in points && IsStale(id, points[id], rows)
    ensures id in f.tenantMismatch <==> id in points && IsForeign(id, points[id], rows)
  {
    hide ContractOk, RevisionRead, TenantText;
  }

  lemma EitherListed(a: seq<Id>, b: seq<Id>, id: Id)
    ensures id in Sorted(Elements(a) + Elements(b)) <==> id in a || id in b
  {
    assert id in Sorted(Elements(a) + Elements(b)) <==> id in Elements(a) + Elements(b);
  }

  /** What a green collection is, over the tables: a point for each row that is served and for no other, under that
      row's name, its owner and the contract, with a revision field that reads as the row's. */
  lemma GreenMeans(kind: Kind, sql: Sql, points: Collection, c: Contract)
    ensures ReadsExact(kind, points, SqlRows(sql, kind), c) <==>
            && (forall id :: id in points <==> Served(sql, kind, id))
            && (forall id :: id in points ==>
                  && points[id].identity == Some(id) && points[id].tenant == OwnerOf(sql, kind, id)
                  && RevisionRead(points[id].revision) == Some(RevisionOf(sql, kind, id))
                  && points[id].fingerprint == Some(c.canonical)
                  && (kind == Memory ==> points[id].token == Some(c.token) && c.token != "")
                  && (kind == Chunk ==> c.canonical != ""))
  {
    hide SqlRows, RevisionRead, Served, OwnerOf, RevisionOf;
    var rows := SqlRows(sql, kind);
    forall id
      ensures id in Eligible(rows) <==> Served(sql, kind, id)
      ensures Served(sql, kind, id) ==> rows[id] == Record(RevisionOf(sql, kind, id), None, Some(OwnerOf(sql, kind, id)))
    {
      EligibleIsServed(sql, kind, id);
    }
  }

  lemma NoElements(list: seq<Id>)
    ensures Elements(list) == {} <==> list == []
  {
    if list != [] { assert list[0] in Elements(list); }
  }

  lemma ReadsExactKeys(kind: Kind, points: Collection, rows: map<Id, Record>, c: Contract)
    requires ReadsExact(kind, points, rows, c)
    ensures |points| == |Eligible(rows)|
  {
    assert |points| == |points.Keys|;
  }

  function Kept(list: seq<Id>, keep: set<Id>): (kept: seq<Id>)
    ensures forall id :: id in kept <==> id in list && id in keep
    ensures kept == [] <==> forall id :: id in list ==> id !in keep
  {
    if list == [] then [] else
      var rest := Kept(list[1..], keep);
      assert list[0] in list && forall id :: id in list <==> id == list[0] || id in list[1..];
      if list[0] in keep then [list[0]] + rest else rest
  }

  // ── when a green report is the truth ───────────────────────────────────────

  /** The vector a row's own revision, tenant and contract describe. */
  function Mirror(kind: Kind, id: Id, record: Record, c: Contract): Payload {
    Payload(Some(id), TenantText(record), Number(record.revision),
            Some(c.canonical), if kind == Memory then Some(c.token) else None)
  }

  function MirrorAll(kind: Kind, rows: map<Id, Record>, c: Contract): Collection {
    map id | id in Eligible(rows) :: Mirror(kind, id, rows[id], c)
  }

  predicate RealContract(c: Contract) { c.token != "" && c.canonical != "" }

  lemma MirrorIsExact(kind: Kind, rows: map<Id, Record>, c: Contract)
    requires RealContract(c)
    ensures Exact(kind, MirrorAll(kind, rows, c), rows, c)
  {
  }

  predicate NoRevisionZero(rows: map<Id, Record>) { forall id :: id in Eligible(rows) ==> rows[id].revision != 0 }

  /** Every revision field is a whole number other than zero, which reads as -1. */
  predicate WholeRevisions(points: Collection) {
    forall id :: id in points ==> points[id].revision.Number? && points[id].revision.n != 0
  }

  /** A green report is the truth exactly when every revision field is such a number. */
  lemma GreenIsTrueIff(kind: Kind, points: Collection, rows: map<Id, Record>, c: Contract)
    requires ReadsExact(kind, points, rows, c)
    ensures Exact(kind, points, rows, c) <==> WholeRevisions(points)
  {
    hide ContractOk;
    forall id | id in points
      ensures Faithful(kind, id, points[id], rows[id], c) <==> points[id].revision.Number? && points[id].revision.n != 0
    {
      assert Accepted(kind, id, points[id], rows[id], c);
    }
  }

  /** A collection that is the eligible rows is reported green exactly when none of them is at revision 0. */
  lemma TrueIsGreenIff(kind: Kind, points: Collection, rows: map<Id, Record>, c: Contract)
    requires Exact(kind, points, rows, c)
    ensures ReadsExact(kind, points, rows, c) <==> NoRevisionZero(rows)
  {
    hide ContractOk;
    forall id | id in points
      ensures RevisionRead(points[id].revision) == Some(rows[id].revision) <==> rows[id].revision != 0
    {
      assert Faithful(kind, id, points[id], rows[id], c);
    }
  }

  // ── which fields verify may meet ───────────────────────────────────────────

  datatype FieldKind = AbsentField | WholeField | FractionField | FlagField | TextField | CompositeField

  function KindOf(r: Revision): FieldKind {
    match r
    case Missing => AbsentField
    case Number(_) => WholeField
    case Fraction(_) => FractionField
    case Flag(_) => FlagField
    case Text(_, _) => TextField
    case Composite(_) => CompositeField
  }

  predicate FieldsIn(points: Collection, allowed: set<FieldKind>) {
    forall id :: id in points ==> KindOf(points[id].revision) in allowed
  }

  /** Some field of this kind reads as this revision without being that number. */
  predicate Misleads(field: FieldKind, revision: int) {
    match field
    case AbsentField => revision == -1
    case WholeField => revision == -1
    case FractionField => true
    case FlagField => revision == 1 || revision == -1
    case TextField => true
    case CompositeField => revision == -1
  }

  /** A field of that kind which does. */
  function Misread(field: FieldKind, revision: int): (r: Revision)
    requires Misleads(field, revision)
    ensures KindOf(r) == field && r != Number(revision) && RevisionRead(r) == Some(revision)
  {
    match field
    case AbsentField => Missing
    case WholeField => Number(0)
    case FractionField =>
      var x := if revision < 0 then revision as real - 0.5 else revision as real + 0.5;
      assert Truncated(x) == revision by { CutOff(revision); }
      Fraction(x)
    case FlagField => Flag(revision == 1)
    case TextField => Text(false, Some(revision))
    case CompositeField => Composite(true)
  }

  lemma CutOff(n: int)
    ensures Truncated(if n < 0 then n as real - 0.5 else n as real + 0.5) == n
  {
    if n < 0 {
      assert (-(n as real - 0.5)).Floor == -n by { assert -(n as real - 0.5) == (-n) as real + 0.5; }
    }
  }

  lemma OnlyThese(r: Revision, revision: int)
    requires RevisionRead(r) == Some(revision) && r != Number(revision)
    ensures Misleads(KindOf(r), revision)
  {
  }

  /** The rows' own mirror with one revision field replaced by one that reads the same is green and wrong. */
  lemma Misjudged(kind: Kind, rows: map<Id, Record>, c: Contract, id: Id, r: Revision) returns (points: Collection)
    requires RealContract(c) && NoRevisionZero(rows)
    requires id in Eligible(rows) && r != Number(rows[id].revision) && RevisionRead(r) == Some(rows[id].revision)
    ensures points.Keys == Eligible(rows) && points[id].revision == r
    ensures forall other :: other in points && other != id ==> points[other].revision == Number(rows[other].revision)
    ensures ReadsExact(kind, points, rows, c) && !Exact(kind, points, rows, c)
  {
    var mirror := MirrorAll(kind, rows, c);
    MirrorIsExact(kind, rows, c);
    TrueIsGreenIff(kind, mirror, rows, c);
    points := mirror[id := mirror[id].(revision := r)];
    assert points.Keys == mirror.Keys;
    assert !Faithful(kind, id, points[id], rows[id], c);
  }

  /** Whatever kinds of revision field the writers may leave, whole numbers among them, verify tells the truth about
      every such collection exactly when no eligible row is at revision 0 and no allowed kind misleads at an eligible
      row's revision. */
  lemma VerifyIsTruthfulIff(kind: Kind, rows: map<Id, Record>, c: Contract, allowed: set<FieldKind>)
    requires RealContract(c) && WholeField in allowed
    ensures (forall points :: FieldsIn(points, allowed) ==>
               (ReadsExact(kind, points, rows, c) <==> Exact(kind, points, rows, c)))
            <==> && NoRevisionZero(rows)
                 && forall id, field :: id in Eligible(rows) && field in allowed ==> !Misleads(field, rows[id].revision)
  {
    hide ReadsExact, Exact, Eligible;
    if NoRevisionZero(rows)
       && forall id, field :: id in Eligible(rows) && field in allowed ==> !Misleads(field, rows[id].revision) {
      forall points | FieldsIn(points, allowed) ensures ReadsExact(kind, points, rows, c) <==> Exact(kind, points, rows, c) {
        AgreesOn(kind, points, rows, c, allowed);
      }
    } else if !NoRevisionZero(rows) {
      var mirror := MirrorAll(kind, rows, c);
      MirrorIsExact(kind, rows, c);
      TrueIsGreenIff(kind, mirror, rows, c);
      assert FieldsIn(mirror, allowed);
    } else {
      var id, field :| id in Eligible(rows) && field in allowed && Misleads(field, rows[id].revision);
      var points := Misjudged(kind, rows, c, id, Misread(field, rows[id].revision));
      assert FieldsIn(points, allowed);
    }
  }

  /** With whole numbers and absent fields only: exactly when no eligible row is at revision 0 or -1. */
  lemma TruthfulOnPlainFieldsIff(kind: Kind, rows: map<Id, Record>, c: Contract)
    requires RealContract(c)
    ensures (forall points :: FieldsIn(points, {AbsentField, WholeField}) ==>
               (ReadsExact(kind, points, rows, c) <==> Exact(kind, points, rows, c)))
            <==> forall id :: id in Eligible(rows) ==> rows[id].revision != 0 && rows[id].revision != -1
  {
    hide ReadsExact, Exact, Eligible, FieldsIn;
    VerifyIsTruthfulIff(kind, rows, c, {AbsentField, WholeField});
    forall id | id in Eligible(rows) && rows[id].revision == -1 ensures Misleads(WholeField, rows[id].revision) {}
  }

  lemma AgreesOn(kind: Kind, points: Collection, rows: map<Id, Record>, c: Contract, allowed: set<FieldKind>)
    requires NoRevisionZero(rows) && FieldsIn(points, allowed)
    requires forall id, field :: id in Eligible(rows) && field in allowed ==> !Misleads(field, rows[id].revision)
    ensures ReadsExact(kind, points, rows, c) <==> Exact(kind, points, rows, c)
  {
    if Exact(kind, points, rows, c) { TrueIsGreenIff(kind, points, rows, c); }
    if ReadsExact(kind, points, rows, c) {
      forall id | id in points ensures points[id].revision == Number(rows[id].revision) {
        if points[id].revision != Number(rows[id].revision) { OnlyThese(points[id].revision, rows[id].revision); }
      }
    }
  }

  /** A field that reads as revision 0, which no whole number does: a fraction nearer than one to zero, or text. */
  predicate ReadsZero(r: Revision) {
    (r.Fraction? && r.x != 0.0 && -1.0 < r.x < 1.0) || (r.Text? && !r.empty && r.asInt == Some(0))
  }

  lemma ReadsZeroIff(r: Revision)
    ensures RevisionRead(r) == Some(0) <==> ReadsZero(r)
  {
    if r.Fraction? && r.x != 0.0 {
      if r.x < 0.0 { assert (-r.x).Floor == 0 <==> -r.x < 1.0; } else { assert r.x.Floor == 0 <==> r.x < 1.0; }
    }
  }

  /** An eligible row at revision 0 verifies only through a point whose field reads as zero without being a whole
      number; its own payload, and every payload the code writes, blocks every verify and so every cutover. */
  lemma RevisionZeroNeeds(kind: Kind, points: Collection, rows: map<Id, Record>, c: Contract, id: Id)
    requires id in Eligible(rows) && rows[id].revision == 0 && ReadsExact(kind, points, rows, c)
    ensures id in points && ReadsZero(points[id].revision) && Accepted(kind, id, points[id], rows[id], c)
  {
    ReadsZeroIff(points[id].revision);
  }
}
