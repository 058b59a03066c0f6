/** The claim-time flag filter: the SQL predicate it generates, the parameters it
    binds, and the documented eligibility rule the two must implement together.
    The predicate is kept as syntax and given PostgreSQL's three-valued meaning. */
module FlagFilter {
  import opened Wrappers

  /** A jsonb value. */
  datatype Json =
    | JNull
    | JBool(b: bool)
    | JNumber(n: int)
    | JString(s: string)
    | JArray(items: seq<Json>)
    | JObject(fields: map<string, Json>)

  datatype Filter = Filter(forbidden: seq<string>, accepted: seq<string>, allowed: Option<seq<string>>)

  /** The part of a filter that decides the SQL text. */
  datatype Shape = Shape(forbidden: bool, accepted: bool, allowlist: bool)

  function ShapeOf(f: Filter): Shape {
    Shape(f.forbidden != [], f.accepted != [], f.allowed.Some?)
  }

  function Bit(b: bool): nat { if b then 1 else 0 }

  function ParameterCount(f: Filter): nat {
    var shape := ShapeOf(f);
    Bit(shape.forbidden) + Bit(shape.accepted) + Bit(shape.allowlist)
  }

  // ---------------------------------------------------------------- SQL syntax

  /** A bound driver parameter. */
  datatype Value =
    | Text(text: string) | Int(n: int) | Timestamp(at: int) | IntArray(ns: seq<int>) | TextArray(texts: seq<string>)

  /** The text array that ordinal `n` names: the driver numbers parameters from one. */
  function ArrayAt(params: seq<Value>, n: nat): Option<seq<string>> {
    if 1 <= n <= |params| && params[n - 1].TextArray? then Some(params[n - 1].texts) else None
  }

  /** Boolean SQL over the column `jobs.flags` and text-array parameters, which
      are named by their ordinal. */
  datatype Sql =
    | Literal(value: bool)
    | FlagsExistAny(ordinal: nat)          // jobs.flags ?| $n
    | IsNotTrue(operand: Sql)              // (e) is not true
    | FlagsIsNull                          // jobs.flags is null
    | FlagsIsObject                        // jsonb_typeof(jobs.flags) = 'object'
    | FlagsMinusIsEmpty(ordinal: nat)      // (jobs.flags - $n) = '{}'
    | Case(when1: Sql, then1: Sql, when2: Sql, then2: Sql, otherwise: Sql)

  /** The result of evaluating SQL: a three-valued truth value or a runtime error. */
  datatype Truth = True | False | Unknown | Error

  function Truth2(b: bool): Truth { if b then True else False }

  /** The operator `?|`: some label is a key, an array element or the string itself. */
  predicate HasLabel(v: Json, tag: string) {
    match v
    case JObject(fields) => tag in fields
    case JArray(items) => JString(tag) in items
    case JString(s) => s == tag
    case _ => false
  }

  predicate HasAnyLabel(v: Json, labels: seq<string>) {
    exists i :: 0 <= i < |labels| && HasLabel(v, labels[i])
  }

  /** `v - labels = '{}'`; subtracting from a scalar is a runtime error. */
  function MinusIsEmpty(v: Json, labels: seq<string>): Truth {
    match v
    case JObject(fields) => Truth2(forall key <- fields.Keys :: key in labels)
    case JArray(_) => False
    case _ => Error
  }

  function Eval(e: Sql, flags: Option<Json>, params: seq<Value>): Truth {
    match e
    case Literal(b) => Truth2(b)
    case FlagsExistAny(n) =>
      if ArrayAt(params, n).None? then Error
      else if flags.None? then Unknown
      else Truth2(HasAnyLabel(flags.value, ArrayAt(params, n).value))
    case IsNotTrue(operand) =>
      var t := Eval(operand, flags, params);
      if t.Error? then Error else Truth2(t != True)
    case FlagsIsNull => Truth2(flags.None?)
    case FlagsIsObject => if flags.None? then Unknown else Truth2(flags.value.JObject?)
    case FlagsMinusIsEmpty(n) =>
      if ArrayAt(params, n).None? then Error
      else if flags.None? then Unknown
      else MinusIsEmpty(flags.value, ArrayAt(params, n).value)
    case Case(c1, e1, c2, e2, e3) =>
      var t1 := Eval(c1, flags, params);
      if t1.Error? then Error
      else if t1 == True then Eval(e1, flags, params)
      else
        var t2 := Eval(c2, flags, params);
        if t2.Error? then Error
        else if t2 == True then Eval(e2, flags, params)
        else Eval(e3, flags, params)
  }

  /** A WHERE list keeps a row exactly when every conjunct is true; a conjunct that
      raises an error fails the statement, so it keeps nothing either. */
  ghost predicate Keeps(conjuncts: seq<Sql>, flags: Option<Json>, params: seq<Value>) {
    forall i :: 0 <= i < |conjuncts| ==> Eval(conjuncts[i], flags, params) == True
  }

  ghost predicate Raises(conjuncts: seq<Sql>, flags: Option<Json>, params: seq<Value>) {
    exists i :: 0 <= i < |conjuncts| && Eval(conjuncts[i], flags, params) == Error
  }

  function AllowlistCase(ordinal: nat): Sql {
    Case(FlagsIsNull, Literal(true), FlagsIsObject, FlagsMinusIsEmpty(ordinal), Literal(false))
  }

  /** The conjuncts of a filter with the given shape, numbered from `first`. */
  function ClauseOf(shape: Shape, first: nat): seq<Sql> {
    var accepted := first + Bit(shape.forbidden);
    var allowlist := accepted + Bit(shape.accepted);
    (if shape.forbidden then [IsNotTrue(FlagsExistAny(first))] else [])
    + (if shape.accepted then [FlagsExistAny(accepted)] else [])
    + (if shape.allowlist then [AllowlistCase(allowlist)] else [])
  }

  /** Pushes the configured conjuncts while counting the ordinal up. */
  method Clause(f: Filter, first: nat) returns (clause: seq<Sql>)
    ensures clause == ClauseOf(ShapeOf(f), first)
    ensures |clause| == ParameterCount(f)
  {
    var parameter := first;
    clause := [];
    if f.forbidden != [] {
      clause := clause + [IsNotTrue(FlagsExistAny(parameter))];
      parameter := parameter + 1;
    }
    if f.accepted != [] {
      clause := clause + [FlagsExistAny(parameter)];
      parameter := parameter + 1;
    }
    if f.allowed.Some? {
      clause := clause + [AllowlistCase(parameter)];
    }
  }

  // ------------------------------------------------------------ bound parameters

  function BoundOf(f: Filter): seq<Value> {
    (if f.forbidden != [] then [TextArray(f.forbidden)] else [])
    + (if f.accepted != [] then [TextArray(f.accepted)] else [])
    + (if f.allowed.Some? then [TextArray(f.allowed.value)] else [])
  }

  /** Appends the filter's arrays behind the parameters already pushed. */
  method Bind(f: Filter, before: seq<Value>) returns (params: seq<Value>)
    ensures params == before + BoundOf(f)
    ensures |params| == |before| + ParameterCount(f)
  {
    params := before;
    if f.forbidden != [] { params := params + [TextArray(f.forbidden)]; }
    if f.accepted != [] { params := params + [TextArray(f.accepted)]; }
    if f.allowed.Some? { params := params + [TextArray(f.allowed.value)]; }
  }

  /** The whole parameter vector of a claim query. A batch query also binds its
      limit, and an application clock is bound last. */
  function ParamsOf(worker: string, tasks: seq<int>, limit: Option<int>, f: Filter, now: Option<int>): seq<Value> {
    [Text(worker), IntArray(tasks)]
    + (if limit.Some? then [Int(limit.value)] else [])
    + BoundOf(f)
    + (if now.Some? then [Timestamp(now.value)] else [])
  }

  /** Pushes the whole parameter vector, as the two claim functions do. */
  method PushParams(worker: string, tasks: seq<int>, limit: Option<int>, f: Filter, now: Option<int>)
    returns (params: seq<Value>)
    ensures params == ParamsOf(worker, tasks, limit, f, now)
  {
    params := [Text(worker), IntArray(tasks)];
    if limit.Some? { params := params + [Int(limit.value)]; }
    params := Bind(f, params);
    if now.Some? { params := params + [Timestamp(now.value)]; }
  }

  // --------------------------------------------------------- the documented rule

  /** Eligibility as the filter documents it. */
  ghost predicate Admits(f: Filter, flags: Option<Json>) {
    && (flags.None? || !HasAnyLabel(flags.value, f.forbidden))
    && (f.accepted != [] ==> flags.Some? && HasAnyLabel(flags.value, f.accepted))
    && (f.allowed.Some? && flags.Some? ==>
          flags.value.JObject? && flags.value.fields.Keys <= set tag | tag in f.allowed.value)
  }

  /** For every filter, every flags value and both claim queries, the generated
      conjuncts over the bound parameters never raise an error and keep exactly the
      documented rows; the clock's ordinal names the clock. */
  lemma ClauseMeansAdmits(f: Filter, flags: Option<Json>, worker: string, tasks: seq<int>, limit: Option<int>,
                          now: Option<int>)
    ensures var first := if limit.Some? then 4 else 3;
            var params := ParamsOf(worker, tasks, limit, f, now);
            && !Raises(ClauseOf(ShapeOf(f), first), flags, params)
            && (Keeps(ClauseOf(ShapeOf(f), first), flags, params) <==> Admits(f, flags))
            && (now.Some? ==> |params| == first + ParameterCount(f)
                              && params[first + ParameterCount(f) - 1] == Timestamp(now.value))
  {
    var first := if limit.Some? then 4 else 3;
    var params := ParamsOf(worker, tasks, limit, f, now);
    var shape := ShapeOf(f);
    var accepted := first + Bit(shape.forbidden);
    var allowlist := accepted + Bit(shape.accepted);
    assert shape.forbidden ==> ArrayAt(params, first) == Some(f.forbidden);
    assert shape.accepted ==> ArrayAt(params, accepted) == Some(f.accepted);
    assert shape.allowlist ==> ArrayAt(params, allowlist) == f.allowed;
    ConjunctsMean(f, flags, first, params);
  }

  /** Conjunct by conjunct, once every ordinal is known to reach its own array. */
  lemma ConjunctsMean(f: Filter, flags: Option<Json>, first: nat, params: seq<Value>)
    requires var shape := ShapeOf(f);
             var accepted := first + Bit(shape.forbidden);
             var allowlist := accepted + Bit(shape.accepted);
             && (shape.forbidden ==> ArrayAt(params, first) == Some(f.forbidden))
             && (shape.accepted ==> ArrayAt(params, accepted) == Some(f.accepted))
             && (shape.allowlist ==> ArrayAt(params, allowlist) == f.allowed)
    ensures !Raises(ClauseOf(ShapeOf(f), first), flags, params)
    ensures Keeps(ClauseOf(ShapeOf(f), first), flags, params) <==> Admits(f, flags)
  {
    var shape := ShapeOf(f);
    var accepted := first + Bit(shape.forbidden);
    var allowlist := accepted + Bit(shape.accepted);
    var c1 := if shape.forbidden then [IsNotTrue(FlagsExistAny(first))] else [];
    var c2 := if shape.accepted then [FlagsExistAny(accepted)] else [];
    var c3 := if shape.allowlist then [AllowlistCase(allowlist)] else [];
    KeepsConcat(c1, c2, flags, params);
    KeepsConcat(c1 + c2, c3, flags, params);
    KeepsOne(IsNotTrue(FlagsExistAny(first)), flags, params);
    KeepsOne(FlagsExistAny(accepted), flags, params);
    KeepsOne(AllowlistCase(allowlist), flags, params);
    if shape.allowlist { AllowlistMeans(f.allowed.value, flags, allowlist, params); }
  }

  lemma KeepsConcat(a: seq<Sql>, b: seq<Sql>, flags: Option<Json>, params: seq<Value>)
    ensures Keeps(a + b, flags, params) <==> Keeps(a, flags, params) && Keeps(b, flags, params)
    ensures Raises(a + b, flags, params) <==> Raises(a, flags, params) || Raises(b, flags, params)
  {
    assert forall i :: 0 <= i < |a| ==> (a + b)[i] == a[i];
    assert forall i :: 0 <= i < |b| ==> (a + b)[|a| + i] == b[i];
  }

  lemma KeepsOne(e: Sql, flags: Option<Json>, params: seq<Value>)
    ensures Keeps([e], flags, params) <==> Eval(e, flags, params) == True
    ensures Raises([e], flags, params) <==> Eval(e, flags, params) == Error
  {
    assert [e][0] == e;
  }

  lemma AllowlistMeans(allowed: seq<string>, flags: Option<Json>, ordinal: nat, params: seq<Value>)
    requires ArrayAt(params, ordinal) == Some(allowed)
    ensures Eval(AllowlistCase(ordinal), flags, params) != Error
    ensures Eval(AllowlistCase(ordinal), flags, params) == True
            <==> flags.None? || (flags.value.JObject? && flags.value.fields.Keys <= set tag | tag in allowed)
  {
  }
}
