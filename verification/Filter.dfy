/** The caller-facing filter language and its one translation into the store's native filter
    (app/retrieval/qdrant_filter.py). */
module Filter {
  import opened Common

  datatype Value =
    | Null | Bool(b: bool) | Int(i: int) | Float(x: real) | Str(s: string)
    | DateTime(instant: real, aware: bool) | Date(day: int)
    | List(items: seq<Value>) | Object(entries: seq<(string, Value)>)

  datatype Stamp = Stamp(instant: real, aware: bool)

  /** How strings are read: as a number, as an ISO-8601 timestamp by the caller's side, and as one by the store. */
  datatype Reading = Reading(number: string -> Option<real>, stamp: string -> Option<Stamp>,
                             stored: string -> Option<real>)

  datatype Operator = Eq | Ne | Gt | Gte | Lt | Lte | In | Nin | Contains

  datatype Error =
    | NotAnObject | TenantField | UnsupportedField | NotOneOperator | UnsupportedOperator
    | NoRange | NeedsList | FloatEquality | NeedsScalar | NeedsNumber | NeedsTimestamp | NoTenant

  datatype Result<+T> = Ok(value: T) | Err(error: Error)

  // The native form.
  datatype Test = MatchValue(value: Value) | MatchAny(any: seq<Value>) | NumberRange(bound: Operator, limit: real)
                | DatetimeRange(bound: Operator, limit: real)
  datatype Condition = Condition(key: string, test: Test)
  datatype Native = Native(must: seq<Condition>, mustNot: Option<seq<Condition>>)

  type Payload = map<string, Value>
  /** A caller's `where` object: its items in order. */
  type Where = seq<(string, Value)>

  const ALLOWED_FIELDS := {"source_type", "captured_at", "salience", "pinned", "tags"}

  function Named(name: string): Option<Operator> {
    if name == "$eq" then Some(Eq) else if name == "$ne" then Some(Ne)
    else if name == "$gt" then Some(Gt) else if name == "$gte" then Some(Gte)
    else if name == "$lt" then Some(Lt) else if name == "$lte" then Some(Lte)
    else if name == "$in" then Some(In) else if name == "$nin" then Some(Nin)
    else if name == "$contains" then Some(Contains) else None
  }

  predicate IsRange(op: Operator) { op in {Gt, Gte, Lt, Lte} }

  predicate IsExclusion(op: Operator) { op in {Ne, Nin} }

  // ── the translation ────────────────────────────────────────────────────────

  function OperatorOf(value: Value): Result<(Operator, Value)> {
    if !value.Object? then Ok((Eq, value))
    else if |value.entries| != 1 then Err(NotOneOperator)
    else match Named(value.entries[0].0)
      case None => Err(UnsupportedOperator)
      case Some(op) => Ok((op, value.entries[0].1))
  }

  function MatchOf(key: string, operand: Value): Result<Condition> {
    match operand
    case Float(_) => Err(FloatEquality)
    case Bool(_) => Ok(Condition(key, MatchValue(operand)))
    case Int(_) => Ok(Condition(key, MatchValue(operand)))
    case Str(_) => Ok(Condition(key, MatchValue(operand)))
    case _ => Err(NeedsScalar)
  }

  function NumberOf(operand: Value, reading: Reading): Option<real> {
    match operand
    case Bool(b) => Some(if b then 1.0 else 0.0)
    case Int(i) => Some(i as real)
    case Float(x) => Some(x)
    case Str(s) => reading.number(s)
    case _ => None
  }

  /** A timezone-aware instant, if the operand is one; a bare date is midnight UTC. */
  function InstantOf(operand: Value, reading: Reading): Option<real> {
    match operand
    case DateTime(instant, aware) => if aware then Some(instant) else None
    case Date(day) => Some(day as real * 86400.0)
    case Str(s) =>
      var stamp := reading.stamp(s);
      if stamp.Some? && stamp.value.aware then Some(stamp.value.instant) else None
    case _ => None
  }

  function RangeOf(key: string, op: Operator, operand: Value, reading: Reading): Result<Condition> {
    if key == "salience" then
      match NumberOf(operand, reading)
      case Some(x) => Ok(Condition(key, NumberRange(op, x)))
      case None => Err(NeedsNumber)
    else if key == "captured_at" then
      match InstantOf(operand, reading)
      case Some(x) => Ok(Condition(key, DatetimeRange(op, x)))
      case None => Err(NeedsTimestamp)
    else Err(NoRange)
  }

  function ConditionOf(key: string, op: Operator, operand: Value, reading: Reading): Result<Condition> {
    if IsRange(op) then RangeOf(key, op, operand, reading)
    else if op == In || op == Nin then
      if operand.List? then Ok(Condition(key, MatchAny(operand.items))) else Err(NeedsList)
    else MatchOf(key, operand)
  }

  /** One clause: its operator and native condition, or why it is refused. */
  function ClauseOf(clause: (string, Value), reading: Reading): Result<(Operator, Condition)> {
    if clause.0 == "user_id" then Err(TenantField)
    else if clause.0 !in ALLOWED_FIELDS then Err(UnsupportedField)
    else match OperatorOf(clause.1)
      case Err(e) => Err(e)
      case Ok(pair) =>
        match ConditionOf(clause.0, pair.0, pair.1, reading)
        case Err(e) => Err(e)
        case Ok(condition) => Ok((pair.0, condition))
  }

  function Tenant(user: string): Condition { Condition("user_id", MatchValue(Str(user))) }

  /** The conditions of the clauses that are (or are not) exclusions, in order. */
  function Bucket(clauses: Where, reading: Reading, exclusions: bool): seq<Condition> {
    if clauses == [] then [] else
      var shorter := Bucket(clauses[..|clauses| - 1], reading, exclusions);
      var last := ClauseOf(clauses[|clauses| - 1], reading);
      if last.Ok? && IsExclusion(last.value.0) == exclusions then shorter + [last.value.1] else shorter
  }

  /** `where` is None when the caller gives no filter; a value that is not an object is refused. */
  method BuildFilter(user: string, where: Option<Value>, reading: Reading) returns (r: Result<Native>)
    ensures where.None? ==> r == Ok(Native([Tenant(user)], None))
    ensures where.Some? && !where.value.Object? ==> r == Err(NotAnObject)
    ensures where.Some? && where.value.Object? ==> (r.Ok? <==> AllWellFormed(where.value.entries, reading))
    ensures where.Some? && where.value.Object? && r.Ok? ==>
              r.value.must != [] && r.value.must[0] == Tenant(user) && r.value == NativeOf(user, where.value.entries, reading)
    ensures where.Some? && where.value.Object? && r.Err? ==>
              exists i :: 0 <= i < |where.value.entries| && ClauseOf(where.value.entries[i], reading) == Err(r.error)
                && forall j :: 0 <= j < i ==> ClauseOf(where.value.entries[j], reading).Ok?
  {
    hide ClauseOf, IsExclusion, Tenant, WellFormed;
    if where.None? { return Ok(Native([Tenant(user)], None)); }
    if !where.value.Object? { return Err(NotAnObject); }
    var entries := where.value.entries;
    var must, mustNot := [Tenant(user)], [];
    for i := 0 to |entries|
      invariant must == [Tenant(user)] + Bucket(entries[..i], reading, false)
      invariant mustNot == Bucket(entries[..i], reading, true)
      invariant forall j :: 0 <= j < i ==> ClauseOf(entries[j], reading).Ok? && WellFormed(entries[j], reading)
    {
      assert entries[..i + 1][..i] == entries[..i];
      var clause := ClauseOf(entries[i], reading);
      AcceptedIff(entries[i], reading);
      if clause.Err? { return Err(clause.error); }
      if IsExclusion(clause.value.0) {
        mustNot := mustNot + [clause.value.1];
      } else {
        must := must + [clause.value.1];
      }
    }
    assert entries[..|entries|] == entries;
    return Ok(Native(must, if mustNot == [] then None else Some(mustNot)));
  }

  function NativeOf(user: string, clauses: Where, reading: Reading): Native {
    var mustNot := Bucket(clauses, reading, true);
    Native([Tenant(user)] + Bucket(clauses, reading, false), if mustNot == [] then None else Some(mustNot))
  }

  // ── what a native filter selects ───────────────────────────────────────────

  /** The values under a field: none when absent, the elements of a list, else the value itself. */
  function ValuesOf(p: Payload, key: string): seq<Value> {
    if key !in p then [] else if p[key].List? then p[key].items else [p[key]]
  }

  predicate Compares(op: Operator, x: real, limit: real) {
    match op
    case Gt => x > limit
    case Gte => x >= limit
    case Lt => x < limit
    case Lte => x <= limit
    case _ => false
  }

  predicate Passes(test: Test, v: Value, reading: Reading) {
    match test
    case MatchValue(value) => v == value
    case MatchAny(any) => v in any
    case NumberRange(bound, limit) =>
      (v.Int? && Compares(bound, v.i as real, limit)) || (v.Float? && Compares(bound, v.x, limit))
    case DatetimeRange(bound, limit) =>
      v.Str? && reading.stored(v.s).Some? && Compares(bound, reading.stored(v.s).value, limit)
  }

  /** A condition is met when one of the field's values passes; an absent field never does. */
  predicate Meets(c: Condition, p: Payload, reading: Reading) {
    exists i :: 0 <= i < |ValuesOf(p, c.key)| && Passes(c.test, ValuesOf(p, c.key)[i], reading)
  }

  ghost predicate Matches(f: Native, p: Payload, reading: Reading) {
    && (forall c :: c in f.must ==> Meets(c, p, reading))
    && (f.mustNot.Some? ==> forall c :: c in f.mustNot.value ==> !Meets(c, p, reading))
  }

  // ── what the caller's language means ───────────────────────────────────────

  /** A clause can be asked: an allowed field with a scalar, or one known operator with an operand that fits it. */
  predicate WellFormed(clause: (string, Value), reading: Reading) {
    clause.0 in ALLOWED_FIELDS
    && (Scalar(clause.1)
        || (clause.1.Object? && |clause.1.entries| == 1 && Named(clause.1.entries[0].0).Some?
            && Fits(clause.0, Named(clause.1.entries[0].0).value, clause.1.entries[0].1, reading)))
  }

  predicate Scalar(v: Value) { v.Bool? || v.Int? || v.Str? }

  predicate Fits(key: string, op: Operator, operand: Value, reading: Reading) {
    match op
    case Gt | Gte | Lt | Lte =>
      (key == "salience" && NumberOf(operand, reading).Some?) || (key == "captured_at" && InstantOf(operand, reading).Some?)
    case In | Nin => operand.List?
    case Eq | Ne | Contains => Scalar(operand)
  }

  function Asked(value: Value): (Operator, Value)
    requires value.Object? ==> |value.entries| == 1 && Named(value.entries[0].0).Some?
  {
    if value.Object? then (Named(value.entries[0].0).value, value.entries[0].1) else (Eq, value)
  }

  /** Whether one value of the field answers the question, exclusions read without their negation. */
  predicate Answers(key: string, op: Operator, operand: Value, v: Value, reading: Reading) {
    match op
    case Eq | Ne | Contains => v == operand
    case In | Nin => operand.List? && v in operand.items
    case Gt | Gte | Lt | Lte =>
      if key == "salience" then
        NumberOf(operand, reading).Some? && (v.Int? || v.Float?)
        && Compares(op, if v.Int? then v.i as real else v.x, NumberOf(operand, reading).value)
      else
        InstantOf(operand, reading).Some? && v.Str? && reading.stored(v.s).Some?
        && Compares(op, reading.stored(v.s).value, InstantOf(operand, reading).value)
  }

  /** The clause holds: some value answers it, or for an exclusion none does (so an absent field is accepted). */
  predicate ClauseHolds(clause: (string, Value), p: Payload, reading: Reading)
    requires WellFormed(clause, reading)
  {
    var (op, operand) := Asked(clause.1);
    var values := ValuesOf(p, clause.0);
    var some := exists i :: 0 <= i < |values| && Answers(clause.0, op, operand, values[i], reading);
    if op == Ne || op == Nin then !some else some
  }

  // ── the language, operator by operator ─────────────────────────────────────

  /** The field has this value, by itself or in its list. */
  predicate Has(p: Payload, key: string, v: Value) {
    key in p && if p[key].List? then v in p[key].items else v == p[key]
  }

  predicate Filterable(key: string) {
    key == "source_type" || key == "captured_at" || key == "salience" || key == "pinned" || key == "tags"
  }

  lemma HasIsListed(p: Payload, key: string, v: Value)
    ensures v in ValuesOf(p, key) <==> Has(p, key, v)
  {
  }

  /** A scalar by itself means `$eq`. */
  lemma BareMeaning(key: string, operand: Value, p: Payload, reading: Reading)
    requires !operand.Object?
    ensures WellFormed((key, operand), reading) <==> Filterable(key) && (operand.Bool? || operand.Int? || operand.Str?)
    ensures WellFormed((key, operand), reading) ==> (ClauseHolds((key, operand), p, reading) <==> Has(p, key, operand))
  {
    HasIsListed(p, key, operand);
  }

  /** `$eq` and `$contains` ask for a value, `$ne` for its absence. */
  lemma MatchMeaning(key: string, name: string, operand: Value, p: Payload, reading: Reading)
    requires name == "$eq" || name == "$contains" || name == "$ne"
    ensures var clause := (key, Object([(name, operand)]));
            && (WellFormed(clause, reading) <==> Filterable(key) && (operand.Bool? || operand.Int? || operand.Str?))
            && (WellFormed(clause, reading) ==>
                  (ClauseHolds(clause, p, reading) <==> if name == "$ne" then !Has(p, key, operand) else Has(p, key, operand)))
  {
    HasIsListed(p, key, operand);
  }

  /** `$in` asks for one of the listed values, `$nin` for none of them. */
  lemma ListMeaning(key: string, name: string, operand: Value, p: Payload, reading: Reading)
    requires name == "$in" || name == "$nin"
    ensures var clause := (key, Object([(name, operand)]));
            && (WellFormed(clause, reading) <==> Filterable(key) && operand.List?)
            && (WellFormed(clause, reading) ==>
                  (ClauseHolds(clause, p, reading) <==>
                     if name == "$in" then exists v :: v in operand.items && Has(p, key, v)
                     else forall v :: v in operand.items ==> !Has(p, key, v)))
  {
    forall v ensures v in ValuesOf(p, key) <==> Has(p, key, v) { HasIsListed(p, key, v); }
    hide Has;
    if operand.List? && Filterable(key) {
      var clause, values := (key, Object([(name, operand)])), ValuesOf(p, key);
      assert (exists i :: 0 <= i < |values| && values[i] in operand.items)
        <==> exists v :: v in operand.items && v in values;
    }
  }

  /** What a bound of a salience range may be. */
  lemma NumberReads(operand: Value, reading: Reading)
    ensures NumberOf(operand, reading)
              == (if operand.Int? then Some(operand.i as real) else if operand.Float? then Some(operand.x)
                  else if operand == Bool(true) then Some(1.0) else if operand == Bool(false) then Some(0.0)
                  else if operand.Str? then reading.number(operand.s) else None)
  {
  }

  /** And one of a captured_at range: an instant with a timezone, or a day's first in UTC. */
  lemma InstantReads(operand: Value, reading: Reading, x: real)
    ensures InstantOf(operand, reading) == Some(x) <==>
              || operand == DateTime(x, true)
              || (operand.Date? && x == operand.day as real * 86400.0)
              || (operand.Str? && reading.stamp(operand.s) == Some(Stamp(x, true)))
  {
  }

  predicate Above(name: string, x: real, limit: real)
    requires name == "$gt" || name == "$gte" || name == "$lt" || name == "$lte"
  {
    if name == "$gt" then x > limit else if name == "$gte" then x >= limit
    else if name == "$lt" then x < limit else x <= limit
  }

  /** The four ranges, over numbers for salience and over stored timestamps for captured_at; of no other field. */
  lemma RangeMeaning(key: string, name: string, operand: Value, p: Payload, reading: Reading)
    requires name == "$gt" || name == "$gte" || name == "$lt" || name == "$lte"
    ensures var clause := (key, Object([(name, operand)]));
            && (WellFormed(clause, reading) <==>
                  || (key == "salience" && NumberOf(operand, reading).Some?)
                  || (key == "captured_at" && InstantOf(operand, reading).Some?))
            && (WellFormed(clause, reading) && key == "salience" ==>
                  var limit := NumberOf(operand, reading).value;
                  ClauseHolds(clause, p, reading) <==>
                    || (exists n: int :: Has(p, key, Int(n)) && Above(name, n as real, limit))
                    || (exists x: real :: Has(p, key, Float(x)) && Above(name, x, limit)))
            && (WellFormed(clause, reading) && key == "captured_at" ==>
                  var limit := InstantOf(operand, reading).value;
                  ClauseHolds(clause, p, reading) <==>
                    exists s :: Has(p, key, Str(s)) && reading.stored(s).Some? && Above(name, reading.stored(s).value, limit))
  {
    forall v ensures v in ValuesOf(p, key) <==> Has(p, key, v) { HasIsListed(p, key, v); }
    NamedRange(name);
    hide Has, Named, NumberOf, InstantOf;
    var clause, values := (key, Object([(name, operand)])), ValuesOf(p, key);
    var op := Named(name).value;
    forall x, limit ensures Compares(op, x, limit) <==> Above(name, x, limit) { }
    if key == "salience" && NumberOf(operand, reading).Some? {
      NumbersAnswer(op, operand, values, reading);
    } else if key == "captured_at" && InstantOf(operand, reading).Some? {
      InstantsAnswer(op, operand, values, reading);
    }
  }

  lemma NamedRange(name: string)
    requires name == "$gt" || name == "$gte" || name == "$lt" || name == "$lte"
    ensures Named(name) == Some(if name == "$gt" then Gt else if name == "$gte" then Gte else if name == "$lt" then Lt else Lte)
  {
  }

  lemma NumbersAnswer(op: Operator, operand: Value, values: seq<Value>, reading: Reading)
    requires IsRange(op) && NumberOf(operand, reading).Some?
    ensures var limit := NumberOf(operand, reading).value;
            (exists i :: 0 <= i < |values| && Answers("salience", op, operand, values[i], reading)) <==>
              || (exists n: int :: Int(n) in values && Compares(op, n as real, limit))
              || (exists x: real :: Float(x) in values && Compares(op, x, limit))
  {
    hide NumberOf, Compares;
    var limit := NumberOf(operand, reading).value;
    if i :| 0 <= i < |values| && Answers("salience", op, operand, values[i], reading) {
      if values[i].Int? { assert Int(values[i].i) in values; } else { assert Float(values[i].x) in values; }
    }
  }

  lemma InstantsAnswer(op: Operator, operand: Value, values: seq<Value>, reading: Reading)
    requires IsRange(op) && InstantOf(operand, reading).Some?
    ensures var limit := InstantOf(operand, reading).value;
            (exists i :: 0 <= i < |values| && Answers("captured_at", op, operand, values[i], reading)) <==>
              exists s :: Str(s) in values && reading.stored(s).Some? && Compares(op, reading.stored(s).value, limit)
  {
    hide InstantOf, Compares;
    if i :| 0 <= i < |values| && Answers("captured_at", op, operand, values[i], reading) {
      assert Str(values[i].s) in values;
    }
  }

  predicate Ranges(name: string) { name == "$gt" || name == "$gte" || name == "$lt" || name == "$lte" }

  predicate Lists(name: string) { name == "$in" || name == "$nin" }

  predicate MatchesOne(name: string) { name == "$eq" || name == "$ne" || name == "$contains" }

  /** Why a clause is refused: the field first, then the form, the operator's name, its field and its operand. */
  lemma Refusals(key: string, value: Value, reading: Reading)
    ensures var r := ClauseOf((key, value), reading);
            && (r == Err(TenantField) <==> key == "user_id")
            && (r == Err(UnsupportedField) <==> key != "user_id" && !Filterable(key))
            && (Filterable(key) && value.Object? ==>
                  (r == Err(NotOneOperator) <==> |value.entries| != 1)
                  && (|value.entries| == 1 ==>
                        var (name, operand) := value.entries[0];
                        && (r == Err(UnsupportedOperator) <==> !Ranges(name) && !Lists(name) && !MatchesOne(name))
                        && (Ranges(name) && key != "salience" && key != "captured_at" ==> r == Err(NoRange))
                        && (Ranges(name) && key == "salience" && NumberOf(operand, reading) == None ==> r == Err(NeedsNumber))
                        && (Ranges(name) && key == "captured_at" && InstantOf(operand, reading) == None ==>
                              r == Err(NeedsTimestamp))
                        && (Lists(name) && !operand.List? ==> r == Err(NeedsList))
                        && (MatchesOne(name) && operand.Float? ==> r == Err(FloatEquality))
                        && (MatchesOne(name) && !operand.Float? && !Scalar(operand) ==> r == Err(NeedsScalar))))
            && (Filterable(key) && value.Float? ==> r == Err(FloatEquality))
            && (Filterable(key) && !value.Object? && !value.Float? && !Scalar(value) ==> r == Err(NeedsScalar))
  {
    hide NumberOf, InstantOf;
  }

  /** Refused exactly when ill-formed. */
  lemma AcceptedIff(clause: (string, Value), reading: Reading)
    ensures ClauseOf(clause, reading).Ok? <==> WellFormed(clause, reading)
  {
  }

  lemma ClauseMeaning(clause: (string, Value), p: Payload, reading: Reading)
    requires WellFormed(clause, reading)
    ensures ClauseOf(clause, reading).Ok?
    ensures var (op, condition) := ClauseOf(clause, reading).value;
            ClauseHolds(clause, p, reading) <==> (Meets(condition, p, reading) <==> !IsExclusion(op))
  {
    var (op, operand) := Asked(clause.1);
    var (op', condition) := ClauseOf(clause, reading).value;
    assert op == op' && condition.key == clause.0;
    forall v ensures Passes(condition.test, v, reading) <==> Answers(clause.0, op, operand, v, reading) {
      TestMeaning(clause.0, op, operand, v, reading);
    }
  }

  lemma TestMeaning(key: string, op: Operator, operand: Value, v: Value, reading: Reading)
    requires Fits(key, op, operand, reading)
    ensures ConditionOf(key, op, operand, reading).Ok?
    ensures Passes(ConditionOf(key, op, operand, reading).value.test, v, reading)
            <==> Answers(key, op, operand, v, reading)
  {
  }

  ghost predicate AllWellFormed(clauses: Where, reading: Reading) {
    forall i :: 0 <= i < |clauses| ==> WellFormed(clauses[i], reading)
  }

  lemma {:induction false} BucketHas(clauses: Where, reading: Reading, exclusions: bool, c: Condition)
    ensures c in Bucket(clauses, reading, exclusions)
            <==> exists i :: 0 <= i < |clauses| && ClauseOf(clauses[i], reading).Ok?
                   && IsExclusion(ClauseOf(clauses[i], reading).value.0) == exclusions && ClauseOf(clauses[i], reading).value.1 == c
  {
    hide ClauseOf, IsExclusion;
    if clauses != [] {
      var shorter := clauses[..|clauses| - 1];
      BucketHas(shorter, reading, exclusions, c);
      assert forall i :: 0 <= i < |shorter| ==> shorter[i] == clauses[i];
    }
  }

  ghost predicate AllHold(clauses: Where, p: Payload, reading: Reading)
    requires AllWellFormed(clauses, reading)
  {
    forall i :: 0 <= i < |clauses| ==> ClauseHolds(clauses[i], p, reading)
  }

  /** The native filter selects exactly the caller's own payloads on which every clause holds. */
  lemma FilterMeaning(user: string, clauses: Where, p: Payload, reading: Reading)
    requires AllWellFormed(clauses, reading)
    ensures Matches(NativeOf(user, clauses, reading), p, reading)
            <==> Str(user) in ValuesOf(p, "user_id") && AllHold(clauses, p, reading)
  {
    hide ClauseOf, ClauseHolds, WellFormed, Meets, IsExclusion, ALLOWED_FIELDS;
    var f := NativeOf(user, clauses, reading);
    TenantMeaning(user, p, reading);
    if Matches(f, p, reading) {
      assert Tenant(user) in f.must;
      forall i | 0 <= i < |clauses| ensures ClauseHolds(clauses[i], p, reading) {
        assert WellFormed(clauses[i], reading);
        ClauseMeaning(clauses[i], p, reading);
        var (op, condition) := ClauseOf(clauses[i], reading).value;
        BucketHas(clauses, reading, IsExclusion(op), condition);
        if IsExclusion(op) { assert f.mustNot.Some? && condition in f.mustNot.value; } else { assert condition in f.must; }
      }
    }
    if Str(user) in ValuesOf(p, "user_id") && AllHold(clauses, p, reading) {
      forall c | c in f.must ensures Meets(c, p, reading) {
        if c != Tenant(user) { Selected(clauses, p, reading, false, c); }
      }
      if f.mustNot.Some? {
        forall c | c in f.mustNot.value ensures !Meets(c, p, reading) { Selected(clauses, p, reading, true, c); }
      }
    }
  }

  lemma Selected(clauses: Where, p: Payload, reading: Reading, exclusions: bool, c: Condition)
    requires AllWellFormed(clauses, reading) && AllHold(clauses, p, reading)
             && c in Bucket(clauses, reading, exclusions)
    ensures Meets(c, p, reading) == !exclusions
  {
    hide ClauseOf, ClauseHolds, WellFormed, Meets, IsExclusion;
    BucketHas(clauses, reading, exclusions, c);
    var i :| 0 <= i < |clauses| && ClauseOf(clauses[i], reading).Ok?
      && IsExclusion(ClauseOf(clauses[i], reading).value.0) == exclusions && ClauseOf(clauses[i], reading).value.1 == c;
    assert WellFormed(clauses[i], reading);
    ClauseMeaning(clauses[i], p, reading);
  }

  lemma TenantMeaning(user: string, p: Payload, reading: Reading)
    ensures Meets(Tenant(user), p, reading) <==> Str(user) in ValuesOf(p, "user_id")
  {
  }

  /** Adding clauses, anywhere, never selects more. */
  lemma MoreClausesShrink(user: string, fewer: Where, more: Where, p: Payload, reading: Reading)
    requires AllWellFormed(more, reading) && forall i :: 0 <= i < |fewer| ==> fewer[i] in more
    requires Matches(NativeOf(user, more, reading), p, reading)
    ensures AllWellFormed(fewer, reading) && Matches(NativeOf(user, fewer, reading), p, reading)
  {
    hide Matches, ClauseHolds, WellFormed, NativeOf;
    FilterMeaning(user, more, p, reading);
    forall i | 0 <= i < |fewer| ensures WellFormed(fewer[i], reading) && ClauseHolds(fewer[i], p, reading) {
      var j :| 0 <= j < |more| && more[j] == fewer[i];
      assert WellFormed(more[j], reading);
    }
    FilterMeaning(user, fewer, p, reading);
  }

  /** Whatever the clauses, the filters of two users share no payload that names one tenant. */
  lemma TenantsApart(u: string, v: string, a: Where, b: Where, p: Payload, reading: Reading)
    requires AllWellFormed(a, reading) && AllWellFormed(b, reading) && u != v
    requires "user_id" in p ==> !p["user_id"].List?
    ensures !(Matches(NativeOf(u, a, reading), p, reading) && Matches(NativeOf(v, b, reading), p, reading))
  {
    hide Matches, NativeOf, AllHold;
    FilterMeaning(u, a, p, reading);
    FilterMeaning(v, b, p, reading);
  }

  // ── the chunk family ───────────────────────────────────────────────────────

  method BuildChunkFilter(user: Option<string>, conversation: string, document: Option<string>)
    returns (r: Result<Native>)
    ensures r == ChunkNative(user, conversation, document)
    ensures r.Err? <==> user.None? || forall i :: 0 <= i < |user.value| ==> Space(user.value[i])
    ensures r.Ok? ==> r.value.must != [] && r.value.must[0] == Tenant(user.value) && r.value.mustNot.None?
  {
    if user.Some? { BlankIff(user.value); }
    if user.None? || Stripped(user.value) == [] { return Err(NoTenant); }
    var must := [Tenant(user.value), Condition("conversation_id", MatchValue(Str(conversation)))];
    if document.Some? { must := must + [Condition("document_id", MatchValue(Str(document.value)))]; }
    return Ok(Native(must, None));
  }

  function ChunkNative(user: Option<string>, conversation: string, document: Option<string>): Result<Native> {
    if user.None? || Stripped(user.value) == [] then Err(NoTenant)
    else
      var must := [Tenant(user.value), Condition("conversation_id", MatchValue(Str(conversation)))];
      Ok(Native(if document.Some? then must + [Condition("document_id", MatchValue(Str(document.value)))] else must, None))
  }

  /** Refused without a tenant; otherwise exactly the tenant's points of the conversation, and of the document if
      one is named. */
  lemma ChunkFilterMeaning(user: Option<string>, conversation: string, document: Option<string>, p: Payload,
                           reading: Reading)
    ensures ChunkNative(user, conversation, document).Err?
            <==> user.None? || forall i :: 0 <= i < |user.value| ==> Space(user.value[i])
    ensures ChunkNative(user, conversation, document).Ok? ==>
              (Matches(ChunkNative(user, conversation, document).value, p, reading)
               <==> && Str(user.value) in ValuesOf(p, "user_id") && Str(conversation) in ValuesOf(p, "conversation_id")
                    && (document.Some? ==> Str(document.value) in ValuesOf(p, "document_id")))
  {
    hide Meets, ValuesOf;
    if user.Some? { BlankIff(user.value); }
    if user.Some? && Stripped(user.value) != [] {
      var f := ChunkNative(user, conversation, document).value;
      MeetsValue("user_id", user.value, p, reading);
      MeetsValue("conversation_id", conversation, p, reading);
      assert f.must[0] == Tenant(user.value) && f.must[1] == Condition("conversation_id", MatchValue(Str(conversation)));
      if document.Some? {
        MeetsValue("document_id", document.value, p, reading);
        assert f.must[2] == Condition("document_id", MatchValue(Str(document.value)));
      }
    }
  }

  lemma MeetsValue(key: string, s: string, p: Payload, reading: Reading)
    ensures Meets(Condition(key, MatchValue(Str(s))), p, reading) <==> Str(s) in ValuesOf(p, key)
  {
  }
}
