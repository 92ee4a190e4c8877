/**
  The recursive payload checker for a subset of JSON Schema Draft-07: `type`, `enum`, `maximum`,
  `minimum`, `items`, `required` and `properties`, each only where the checker looks at it.
 */
module Schema {
  import opened Values
  import opened Conversions

  datatype SchemaNode = SchemaNode(
    kind: string,
    required: seq<string>,
    properties: map<string, SchemaNode>,
    items: Option<SchemaNode>,
    enum: seq<Value>,
    minimum: Option<real>,
    maximum: Option<real>,
    minLength: Option<int>,
    maxLength: Option<int>)

  datatype Step = Field(name: string) | Index(i: nat)

  datatype Complaint =
    | WrongType
    | Missing(field: string)
    | NotInEnum
    | NotWhole
    | BelowMinimum
    | AboveMaximum

  datatype Violation = Violation(at: seq<Step>, complaint: Complaint)

  // ---- What is wrong with one value, and where values are reached ----

  /** The value has a Go type that the schema's `type` accepts; unknown types accept everything. */
  predicate HasType(kind: string, v: Value) {
    if kind == "object" then v.Obj?
    else if kind == "array" then v.Arr?
    else if kind == "string" then v.Str?
    else if kind == "integer" || kind == "number" then v.Float? || v.Int? || v.Int64?
    else if kind == "boolean" then v.Bool?
    else true
  }

  predicate Absent(fields: map<string, Value>, name: string) {
    name !in fields || fields[name].Null?
  }

  predicate Whole(rt: Runtime, r: real) { r == FloatToInt(rt, r) as real }

  /** A float held to an integer schema; other integers are accepted without looking at bounds. */
  predicate FloatForInteger(schema: SchemaNode, v: Value) { schema.kind == "integer" && v.Float? }

  predicate WholeForInteger(rt: Runtime, schema: SchemaNode, v: Value) { FloatForInteger(schema, v) && Whole(rt, v.r) }

  predicate Applies(rt: Runtime, schema: SchemaNode, v: Value, c: Complaint) {
    match c
    case WrongType => !HasType(schema.kind, v)
    case Missing(name) => schema.kind == "object" && v.Obj? && name in schema.required && Absent(v.fields, name)
    case NotInEnum => schema.kind == "string" && v.Str? && schema.enum != [] && v !in schema.enum
    case NotWhole => FloatForInteger(schema, v) && !Whole(rt, v.r)
    case BelowMinimum => WholeForInteger(rt, schema, v) && schema.minimum.Some? && v.r < schema.minimum.value
    case AboveMaximum => WholeForInteger(rt, schema, v) && schema.maximum.Some? && v.r > schema.maximum.value
  }

  /** How often a complaint is due for this value itself: a field required twice is missing twice. */
  function Local(rt: Runtime, schema: SchemaNode, v: Value, c: Complaint): nat {
    if !Applies(rt, schema, v, c) then 0
    else if c.Missing? then multiset(schema.required)[c.field]
    else 1
  }

  /** One step down through `properties` or `items`, to the schema and value that meet there. */
  function Child(schema: SchemaNode, v: Value, step: Step): Option<(SchemaNode, Value)> {
    match step
    case Field(name) =>
      if schema.kind == "object" && v.Obj? && name in schema.properties && name in v.fields
      then Some((schema.properties[name], v.fields[name]))
      else None
    case Index(i) =>
      if schema.kind == "array" && v.Arr? && schema.items.Some? && i < |v.elems|
      then Some((schema.items.value, v.elems[i]))
      else None
  }

  /** The schema and the value at a location, if steps lead there past no null. */
  function At(schema: SchemaNode, v: Value, loc: seq<Step>): Option<(SchemaNode, Value)>
    decreases |loc|
  {
    if v.Null? then None
    else if loc == [] then Some((schema, v))
    else
      match Child(schema, v, loc[0])
      case None => None
      case Some((s, w)) => At(s, w, loc[1..])
  }

  function Due(rt: Runtime, schema: SchemaNode, v: Value, loc: seq<Step>, c: Complaint): nat {
    match At(schema, v, loc)
    case None => 0
    case Some((s, w)) => Local(rt, s, w, c)
  }

  /** The errors are exactly the complaints due at every reachable location below `path`, as often as due. */
  ghost predicate Exact(rt: Runtime, schema: SchemaNode, v: Value, path: seq<Step>, errs: seq<Violation>) {
    forall at, c :: multiset(errs)[Violation(at, c)] ==
      if path <= at then Due(rt, schema, v, at[|path|..], c) else 0
  }

  // ---- The checker ----

  method ValidateNode(rt: Runtime, schema: SchemaNode, v: Value, path: seq<Step>) returns (errs: seq<Violation>)
    ensures Exact(rt, schema, v, path, errs)
    decreases schema, 1
  {
    if v.Null? { return []; }
    if schema.kind == "object" {
      errs := ValidateObject(rt, schema, v, path);
    } else if schema.kind == "array" {
      errs := ValidateArray(rt, schema, v, path);
    } else {
      errs := ValidateScalar(rt, schema, v, path);
      NothingBelow(rt, schema, v, path, errs, {});
    }
  }

  method ValidateScalar(rt: Runtime, schema: SchemaNode, v: Value, path: seq<Step>) returns (errs: seq<Violation>)
    requires schema.kind != "object" && schema.kind != "array" && !v.Null?
    ensures ExactWithin(rt, schema, v, path, {}, errs)
  {
    errs := [];
    if schema.kind == "string" {
      errs := ValidateString(rt, schema, v, path);
    } else if schema.kind == "integer" {
      errs := ValidateInteger(rt, schema, v, path);
    } else {
      if schema.kind == "number" {
        if !(v.Float? || v.Int? || v.Int64?) { errs := errs + [Violation(path, WrongType)]; }
      } else if schema.kind == "boolean" {
        if !v.Bool? { errs := errs + [Violation(path, WrongType)]; }
      }
      SingleError(rt, schema, v, path, errs, WrongType);
    }
  }

  method ValidateString(rt: Runtime, schema: SchemaNode, v: Value, path: seq<Step>) returns (errs: seq<Violation>)
    requires schema.kind == "string" && !v.Null?
    ensures ExactWithin(rt, schema, v, path, {}, errs)
  {
    errs := [];
    if !v.Str? { errs := errs + [Violation(path, WrongType)]; }
    if |schema.enum| > 0 {
      if v.Str? {
        var found := false;
        for i := 0 to |schema.enum|
          invariant !found && v !in schema.enum[..i]
        {
          if schema.enum[i] == v { found := true; break; }
        }
        if !found { errs := errs + [Violation(path, NotInEnum)]; }
      }
    }
    SingleError(rt, schema, v, path, errs, if v.Str? then NotInEnum else WrongType);
  }

  method ValidateInteger(rt: Runtime, schema: SchemaNode, v: Value, path: seq<Step>) returns (errs: seq<Violation>)
    requires schema.kind == "integer" && !v.Null?
    ensures ExactWithin(rt, schema, v, path, {}, errs)
  {
    errs := [];
    match v {
      case Float(r) =>
        if !Whole(rt, r) {
          errs := errs + [Violation(path, NotWhole)];
          SingleError(rt, schema, v, path, errs, NotWhole);
        } else {
          if schema.minimum.Some? && r < schema.minimum.value { errs := errs + [Violation(path, BelowMinimum)]; }
          if schema.maximum.Some? && r > schema.maximum.value { errs := errs + [Violation(path, AboveMaximum)]; }
          BoundErrors(rt, schema, v, path, errs);
        }
      case Int(_) => SingleError(rt, schema, v, path, errs, WrongType);
      case Int64(_) => SingleError(rt, schema, v, path, errs, WrongType);
      case _ =>
        errs := errs + [Violation(path, WrongType)];
        SingleError(rt, schema, v, path, errs, WrongType);
    }
  }

  /** At most one complaint can apply, and it was made if it does. */
  lemma SingleError(rt: Runtime, schema: SchemaNode, v: Value, path: seq<Step>, errs: seq<Violation>, c: Complaint)
    requires !c.Missing? && errs == if Applies(rt, schema, v, c) then [Violation(path, c)] else []
    requires forall d :: d != c ==> !Applies(rt, schema, v, d)
    ensures ExactWithin(rt, schema, v, path, {}, errs)
  {
    hide Applies;
  }

  lemma BoundErrors(rt: Runtime, schema: SchemaNode, v: Value, path: seq<Step>, errs: seq<Violation>)
    requires FloatForInteger(schema, v) && Whole(rt, v.r)
    requires errs ==
      (if Applies(rt, schema, v, BelowMinimum) then [Violation(path, BelowMinimum)] else []) +
      (if Applies(rt, schema, v, AboveMaximum) then [Violation(path, AboveMaximum)] else [])
    ensures ExactWithin(rt, schema, v, path, {}, errs)
  {
    assert forall d :: d != BelowMinimum && d != AboveMaximum ==> !Applies(rt, schema, v, d);
    hide Applies;
  }

  method ValidateArray(rt: Runtime, schema: SchemaNode, v: Value, path: seq<Step>) returns (errs: seq<Violation>)
    requires schema.kind == "array" && !v.Null?
    ensures Exact(rt, schema, v, path, errs)
    decreases schema, 0
  {
    ghost var visited: set<Step> := {};
    if !v.Arr? {
      errs := [Violation(path, WrongType)];
      NothingBelow(rt, schema, v, path, errs, visited);
      return;
    }
    errs := [];
    if schema.items.Some? {
      for i := 0 to |v.elems|
        invariant forall step :: step in visited <==> step.Index? && step.i < i
        invariant ExactWithin(rt, schema, v, path, visited, errs)
      {
        hide ExactWithin, Exact;
        var step := Index(i);
        var child := ValidateNode(rt, schema.items.value, v.elems[i], path + [step]);
        AddChild(rt, schema, v, path, visited, errs, step, child);
        errs, visited := errs + child, visited + {step};
      }
    }
    NothingBelow(rt, schema, v, path, errs, visited);
  }

  method ValidateObject(rt: Runtime, schema: SchemaNode, v: Value, path: seq<Step>) returns (errs: seq<Violation>)
    requires schema.kind == "object" && !v.Null?
    ensures Exact(rt, schema, v, path, errs)
    decreases schema, 0
  {
    ghost var visited: set<Step> := {};
    if !v.Obj? {
      errs := [Violation(path, WrongType)];
      NothingBelow(rt, schema, v, path, errs, visited);
      return;
    }
    errs := CheckRequired(rt, schema, v, path);
    var keys := schema.properties.Keys;
    while keys != {}
      invariant keys <= schema.properties.Keys
      invariant forall step :: step in visited <==> step.Field? && step.name in schema.properties && step.name !in keys
      invariant ExactWithin(rt, schema, v, path, visited, errs)
      decreases keys
    {
      hide ExactWithin, Exact;
      var key :| key in keys;
      var step := Field(key);
      if key in v.fields && !v.fields[key].Null? {
        var child := ValidateNode(rt, schema.properties[key], v.fields[key], path + [step]);
        AddChild(rt, schema, v, path, visited, errs, step, child);
        errs := errs + child;
      } else {
        AddNothing(rt, schema, v, path, visited, errs, step);
      }
      keys, visited := keys - {key}, visited + {step};
    }
    NothingBelow(rt, schema, v, path, errs, visited);
  }

  method CheckRequired(rt: Runtime, schema: SchemaNode, v: Value, path: seq<Step>) returns (errs: seq<Violation>)
    requires schema.kind == "object" && v.Obj?
    ensures ExactWithin(rt, schema, v, path, {}, errs)
  {
    errs := [];
    for i := 0 to |schema.required|
      invariant MissingAmong(v.fields, schema.required[..i], path, errs)
    {
      var name := schema.required[i];
      assert schema.required[..i + 1] == schema.required[..i] + [name];
      OneMoreRequired(v.fields, schema.required[..i], name, path, errs);
      if name !in v.fields || v.fields[name].Null? {
        errs := errs + [Violation(path, Missing(name))];
      }
    }
    assert schema.required[..|schema.required|] == schema.required;
  }

  ghost predicate MissingAmong(fields: map<string, Value>, required: seq<string>, path: seq<Step>,
      errs: seq<Violation>) {
    forall at, c :: multiset(errs)[Violation(at, c)] ==
      (if at == path && c.Missing? && Absent(fields, c.field) then multiset(required)[c.field] else 0)
  }

  lemma OneMoreRequired(fields: map<string, Value>, required: seq<string>, name: string, path: seq<Step>,
      errs: seq<Violation>)
    requires MissingAmong(fields, required, path, errs)
    ensures MissingAmong(fields, required + [name], path,
              if Absent(fields, name) then errs + [Violation(path, Missing(name))] else errs)
  {
    hide Absent;
  }

  /** The errors are exact at this location and below the steps visited, and there are no others. */
  ghost predicate ExactWithin(rt: Runtime, schema: SchemaNode, v: Value, path: seq<Step>, visited: set<Step>,
      errs: seq<Violation>) {
    forall at, c :: multiset(errs)[Violation(at, c)] ==
      if at == path then Local(rt, schema, v, c)
      else if path < at && at[|path|] in visited then Due(rt, schema, v, at[|path|..], c)
      else 0
  }

  lemma AddChild(rt: Runtime, schema: SchemaNode, v: Value, path: seq<Step>, visited: set<Step>, errs: seq<Violation>,
                 step: Step, child: seq<Violation>)
    requires !v.Null? && step !in visited && Child(schema, v, step).Some?
    requires ExactWithin(rt, schema, v, path, visited, errs)
    requires Exact(rt, Child(schema, v, step).value.0, Child(schema, v, step).value.1, path + [step], child)
    ensures ExactWithin(rt, schema, v, path, visited + {step}, errs + child)
  {
    hide Local, Child;
    forall at, c ensures multiset(errs + child)[Violation(at, c)] ==
      if at == path then Local(rt, schema, v, c)
      else if path < at && at[|path|] in visited + {step} then Due(rt, schema, v, at[|path|..], c)
      else 0
    {
      assert multiset(errs + child)[Violation(at, c)] ==
          multiset(errs)[Violation(at, c)] + multiset(child)[Violation(at, c)];
      if path < at && at[|path|] == step {
        assert at == path + [step] + at[|path| + 1..];
        assert at[|path|..][1..] == at[|path| + 1..];
      }
    }
  }

  lemma AddNothing(rt: Runtime, schema: SchemaNode, v: Value, path: seq<Step>, visited: set<Step>,
      errs: seq<Violation>, step: Step)
    requires !v.Null? && (Child(schema, v, step).Some? ==> Child(schema, v, step).value.1.Null?)
    requires ExactWithin(rt, schema, v, path, visited, errs)
    ensures ExactWithin(rt, schema, v, path, visited + {step}, errs)
  {
    hide Local, Child;
    forall at, c | path < at && at[|path|] == step ensures Due(rt, schema, v, at[|path|..], c) == 0 {
      var loc, child := at[|path|..], Child(schema, v, step);
      assert loc[0] == step;
      assert child.Some? ==> At(child.value.0, child.value.1, loc[1..]) == None;
    }
  }

  /** When every step that leads somewhere was visited, the errors are exact. */
  lemma NothingBelow(rt: Runtime, schema: SchemaNode, v: Value, path: seq<Step>, errs: seq<Violation>,
      visited: set<Step>)
    requires !v.Null? && ExactWithin(rt, schema, v, path, visited, errs)
    requires forall step :: step !in visited ==> Child(schema, v, step).None?
    ensures Exact(rt, schema, v, path, errs)
  {
    hide Local, Child;
    forall at, c ensures multiset(errs)[Violation(at, c)] == if path <= at then Due(rt, schema, v, at[|path|..], c)
        else 0 {
      if path <= at && at != path { assert at[|path|..][0] == at[|path|]; }
    }
  }

  // ---- What exactness gives ----

  /** Whatever order properties are visited in, the same errors come out, each equally often. */
  lemma OrderDoesNotMatter(rt: Runtime, schema: SchemaNode, v: Value, path: seq<Step>, a: seq<Violation>,
      b: seq<Violation>)
    requires Exact(rt, schema, v, path, a) && Exact(rt, schema, v, path, b)
    ensures multiset(a) == multiset(b) && |a| == |b|
  {
    forall x: Violation ensures multiset(a)[x] == multiset(b)[x] {
      assert x == Violation(x.at, x.complaint);
    }
    assert multiset(a) == multiset(b);
    assert |multiset(a)| == |a| && |multiset(b)| == |b|;
  }

  /** A number that a 64-bit integer can hold. */
  predicate IsInteger(r: real) {
    r == r.Floor as real && -0x8000_0000_0000_0000 <= r.Floor <= 0x7fff_ffff_ffff_ffff
  }

  /**
    The value conforms, keyword by keyword as the checker honours them: null conforms to everything,
    a `type` it does not know asks for nothing, and bounds are for floats under `integer` only.
   */
  ghost predicate Conforms(schema: SchemaNode, v: Value)
    decreases schema
  {
    v.Null? ||
    (&& (schema.kind == "object" ==>
           && v.Obj?
           && (forall k :: k in schema.required ==> k in v.fields && v.fields[k] != Null)
           && (forall k :: k in schema.properties && k in v.fields ==> Conforms(schema.properties[k], v.fields[k])))
     && (schema.kind == "array" ==>
           && v.Arr?
           && (schema.items.Some? ==> forall i :: 0 <= i < |v.elems| ==> Conforms(schema.items.value, v.elems[i])))
     && (schema.kind == "string" ==> v.Str? && (|schema.enum| > 0 ==> v in schema.enum))
     && (schema.kind == "integer" ==>
           || v.Int? || v.Int64?
           || (&& v.Float? && IsInteger(v.r)
               && (schema.minimum.Some? ==> schema.minimum.value <= v.r)
               && (schema.maximum.Some? ==> v.r <= schema.maximum.value)))
     && (schema.kind == "number" ==> v.Int? || v.Int64? || v.Float?)
     && (schema.kind == "boolean" ==> v.Bool?))
  }

  /** Outside the 64-bit range no conversion result equals the number, whatever the platform makes of it. */
  lemma WholeIsInteger(rt: Runtime, r: real)
    ensures Whole(rt, r) <==> IsInteger(r)
  {
    if r == r.Floor as real {
      TruncOfWhole(r.Floor);
      if Whole(rt, r) { assert r.Floor == FloatToInt(rt, r); }
      hide Trunc;
    } else {
      hide FloatToInt;
    }
  }

  lemma TruncOfWhole(n: int)
    ensures Trunc(n as real) == n
  {
  }

  /** What each complaint about a value that is not null means. */
  lemma ComplaintsMean(rt: Runtime, schema: SchemaNode, v: Value, path: seq<Step>, errs: seq<Violation>)
    requires Exact(rt, schema, v, path, errs) && !v.Null?
    ensures Violation(path, WrongType) in errs <==>
      || (schema.kind == "object" && !v.Obj?)
      || (schema.kind == "array" && !v.Arr?)
      || (schema.kind == "string" && !v.Str?)
      || (schema.kind == "boolean" && !v.Bool?)
      || ((schema.kind == "integer" || schema.kind == "number") && !v.Float? && !v.Int? && !v.Int64?)
    ensures forall k :: Violation(path, Missing(k)) in errs <==>
      && schema.kind == "object" && v.Obj? && k in schema.required
      && (k in v.fields ==> v.fields[k] == Null)
    ensures Violation(path, NotInEnum) in errs <==>
      schema.kind == "string" && v.Str? && |schema.enum| > 0 && v !in schema.enum
    ensures Violation(path, NotWhole) in errs <==> schema.kind == "integer" && v.Float? && !IsInteger(v.r)
    ensures Violation(path, BelowMinimum) in errs <==>
      schema.kind == "integer" && v.Float? && IsInteger(v.r) && schema.minimum.Some? && v.r < schema.minimum.value
    ensures Violation(path, AboveMaximum) in errs <==>
      schema.kind == "integer" && v.Float? && IsInteger(v.r) && schema.maximum.Some? && v.r > schema.maximum.value
  {
    forall c ensures Violation(path, c) in errs <==> Applies(rt, schema, v, c) {
      ComplaintsAreDue(rt, schema, v, path, errs, c);
    }
    if v.Float? { WholeIsInteger(rt, v.r); }
    hide Exact, Whole, IsInteger;
  }

  lemma ComplaintsAreDue(rt: Runtime, schema: SchemaNode, v: Value, path: seq<Step>, errs: seq<Violation>, c: Complaint)
    requires Exact(rt, schema, v, path, errs) && !v.Null?
    ensures Violation(path, c) in errs <==> Applies(rt, schema, v, c)
  {
    hide Applies;
    AppliesIsCounted(rt, schema, v);
    assert path[|path|..] == [];
    assert multiset(errs)[Violation(path, c)] == Due(rt, schema, v, [], c) == Local(rt, schema, v, c);
    hide Exact, Local;
  }

  /** Without a complaint about the value itself, and only then, its own keywords are honoured. */
  lemma NothingApplies(rt: Runtime, schema: SchemaNode, v: Value)
    requires !v.Null?
    ensures (forall c :: !Applies(rt, schema, v, c)) <==>
      && (schema.kind == "object" ==>
            v.Obj? && forall k :: k in schema.required ==> k in v.fields && v.fields[k] != Null)
      && (schema.kind == "array" ==> v.Arr?)
      && (schema.kind == "string" ==> v.Str? && (|schema.enum| > 0 ==> v in schema.enum))
      && (schema.kind == "integer" ==>
            || v.Int? || v.Int64?
            || (&& v.Float? && IsInteger(v.r)
                && (schema.minimum.Some? ==> schema.minimum.value <= v.r)
                && (schema.maximum.Some? ==> v.r <= schema.maximum.value)))
      && (schema.kind == "number" ==> v.Int? || v.Int64? || v.Float?)
      && (schema.kind == "boolean" ==> v.Bool?)
  {
    if v.Float? { WholeIsInteger(rt, v.r); }
    hide Whole, IsInteger;
    if forall c :: !Applies(rt, schema, v, c) {
      assert !Applies(rt, schema, v, WrongType) && !Applies(rt, schema, v, NotInEnum);
      assert !Applies(rt, schema, v, NotWhole);
      assert !Applies(rt, schema, v, BelowMinimum) && !Applies(rt, schema, v, AboveMaximum);
      forall k | schema.kind == "object" && k in schema.required ensures k in v.fields && v.fields[k] != Null {
        assert !Applies(rt, schema, v, Missing(k));
      }
    }
  }

  ghost predicate NothingDue(rt: Runtime, schema: SchemaNode, v: Value) {
    forall loc, c :: Due(rt, schema, v, loc, c) == 0
  }

  /** The checker reports nothing exactly when the value conforms. */
  lemma NoErrorsIffConforms(rt: Runtime, schema: SchemaNode, v: Value, path: seq<Step>, errs: seq<Violation>)
    requires Exact(rt, schema, v, path, errs)
    ensures errs == [] <==> Conforms(schema, v)
  {
    hide Due, Conforms;
    ConformsIffNothingDue(rt, schema, v);
    if errs == [] {
      forall loc, c ensures Due(rt, schema, v, loc, c) == 0 {
        assert (path + loc)[|path|..] == loc;
        assert multiset(errs)[Violation(path + loc, c)] == 0;
      }
    } else {
      var x := errs[0];
      assert multiset(errs)[Violation(x.at, x.complaint)] > 0;
      assert path <= x.at && Due(rt, schema, v, x.at[|path|..], x.complaint) > 0;
    }
  }

  lemma {:induction false} ConformsIffNothingDue(rt: Runtime, schema: SchemaNode, v: Value)
    ensures Conforms(schema, v) <==> NothingDue(rt, schema, v)
    decreases schema
  {
    if !v.Null? {
      forall step | Child(schema, v, step).Some?
        ensures
          var (s, w) := Child(schema, v, step).value;
          Conforms(s, w) <==> NothingDue(rt, s, w)
      {
        var (s, w) := Child(schema, v, step).value;
        ConformsIffNothingDue(rt, s, w);
      }
      ConformsByChildren(rt, schema, v);
      DueByChildren(rt, schema, v);
    }
  }

  lemma ConformsByChildren(rt: Runtime, schema: SchemaNode, v: Value)
    requires !v.Null?
    ensures Conforms(schema, v) <==>
      && (forall c :: !Applies(rt, schema, v, c))
      && (forall step :: Child(schema, v, step).Some? ==>
            Conforms(Child(schema, v, step).value.0, Child(schema, v, step).value.1))
  {
    NothingApplies(rt, schema, v);
    hide Applies, IsInteger;
    if forall step :: Child(schema, v, step).Some? ==>
         Conforms(Child(schema, v, step).value.0, Child(schema, v, step).value.1) {
      forall k | schema.kind == "object" && v.Obj? && k in schema.properties && k in v.fields
        ensures Conforms(schema.properties[k], v.fields[k])
      {
        assert Child(schema, v, Field(k)).Some?;
      }
      forall i | schema.kind == "array" && v.Arr? && schema.items.Some? && 0 <= i < |v.elems|
        ensures Conforms(schema.items.value, v.elems[i])
      {
        assert Child(schema, v, Index(i)).Some?;
      }
    }
  }

  lemma DueByChildren(rt: Runtime, schema: SchemaNode, v: Value)
    requires !v.Null?
    ensures NothingDue(rt, schema, v) <==>
      && (forall c :: !Applies(rt, schema, v, c))
      && (forall step :: Child(schema, v, step).Some? ==>
            NothingDue(rt, Child(schema, v, step).value.0, Child(schema, v, step).value.1))
  {
    hide Applies, Child;
    AppliesIsCounted(rt, schema, v);
    if NothingDue(rt, schema, v) {
      forall c ensures !Applies(rt, schema, v, c) {
        assert Due(rt, schema, v, [], c) == 0;
      }
      forall step, loc, c | Child(schema, v, step).Some?
        ensures Due(rt, Child(schema, v, step).value.0, Child(schema, v, step).value.1, loc, c) == 0
      {
        assert ([step] + loc)[1..] == loc;
        assert Due(rt, schema, v, [step] + loc, c) == 0;
      }
    }
    forall loc, c
      ensures
        || (loc == [] && Due(rt, schema, v, loc, c) == Local(rt, schema, v, c))
        || (loc != [] && Child(schema, v, loc[0]).None? && Due(rt, schema, v, loc, c) == 0)
        || (loc != [] && Child(schema, v, loc[0]).Some? && Due(rt, schema, v, loc, c) ==
              Due(rt, Child(schema, v, loc[0]).value.0, Child(schema, v, loc[0]).value.1, loc[1..], c))
    {
    }
  }

  lemma AppliesIsCounted(rt: Runtime, schema: SchemaNode, v: Value)
    ensures forall c :: Local(rt, schema, v, c) == 0 <==> !Applies(rt, schema, v, c)
  {
    forall c | Applies(rt, schema, v, c) ensures Local(rt, schema, v, c) > 0 {}
  }

  // ---- Required fields come and go ----

  /**
    Giving an object a field it lacked, or had as null, with a conforming value takes away exactly the
    complaints that the field is missing, one for each time it is required, and nothing else.
   */
  lemma SupplyingRequired(rt: Runtime, schema: SchemaNode, fields: map<string, Value>, k: string, x: Value,
                          path: seq<Step>, before: seq<Violation>, after: seq<Violation>)
    requires schema.kind == "object" && (k in fields ==> fields[k] == Null)
    requires !x.Null? && (k in schema.properties ==> Conforms(schema.properties[k], x))
    requires Exact(rt, schema, Obj(fields), path, before) && Exact(rt, schema, Obj(fields[k := x]), path, after)
    ensures Violation(path, Missing(k)) !in after
    ensures multiset(before) == multiset(after)[Violation(path, Missing(k)) := multiset(schema.required)[k]]
  {
    forall at, c
      ensures multiset(before)[Violation(at, c)] ==
        multiset(after)[Violation(path, Missing(k)) := multiset(schema.required)[k]][Violation(at, c)]
      ensures at == path && c == Missing(k) ==> multiset(after)[Violation(at, c)] == 0
    {
      CountsWhenSupplied(rt, schema, fields, k, x, path, before, after, at, c);
    }
    hide Exact, Conforms;
    SameCounts(multiset(before), multiset(after)[Violation(path, Missing(k)) := multiset(schema.required)[k]]);
    assert multiset(after)[Violation(path, Missing(k))] == 0;
  }

  lemma CountsWhenSupplied(rt: Runtime, schema: SchemaNode, fields: map<string, Value>, k: string, x: Value,
                           path: seq<Step>, before: seq<Violation>, after: seq<Violation>, at: seq<Step>, c: Complaint)
    requires schema.kind == "object" && (k in fields ==> fields[k] == Null)
    requires !x.Null? && (k in schema.properties ==> Conforms(schema.properties[k], x))
    requires Exact(rt, schema, Obj(fields), path, before) && Exact(rt, schema, Obj(fields[k := x]), path, after)
    ensures
      var v := Violation(at, c);
      if at == path && c == Missing(k)
      then multiset(before)[v] == multiset(schema.required)[k] && multiset(after)[v] == 0
      else multiset(before)[v] == multiset(after)[v]
  {
    hide Conforms, Due;
    if path <= at {
      DueWhenSupplied(rt, schema, fields, k, x, at[|path|..], c);
      assert at[|path|..] == [] <==> at == path;
    }
  }

  lemma SameCounts(a: multiset<Violation>, b: multiset<Violation>)
    requires forall at, c :: a[Violation(at, c)] == b[Violation(at, c)]
    ensures a == b
  {
    forall x: Violation ensures a[x] == b[x] { assert x == Violation(x.at, x.complaint); }
  }

  lemma DueWhenSupplied(rt: Runtime, schema: SchemaNode, fields: map<string, Value>, k: string, x: Value,
                        loc: seq<Step>, c: Complaint)
    requires schema.kind == "object" && (k in fields ==> fields[k] == Null)
    requires !x.Null? && (k in schema.properties ==> Conforms(schema.properties[k], x))
    ensures
      var after := Due(rt, schema, Obj(fields[k := x]), loc, c);
      Due(rt, schema, Obj(fields), loc, c) ==
        if loc == [] && c == Missing(k) then multiset(schema.required)[k] else after
    ensures loc == [] && c == Missing(k) ==> Due(rt, schema, Obj(fields[k := x]), loc, c) == 0
  {
    hide Conforms;
    var fields' := fields[k := x];
    if loc == [] {
      hide FloatForInteger, WholeForInteger;
    } else if loc[0] == Field(k) {
      hide Local;
      assert Due(rt, schema, Obj(fields), loc, c) == 0 by { NothingAtNull(rt, schema, fields, k, loc, c); }
      if k in schema.properties {
        assert Child(schema, Obj(fields'), loc[0]) == Some((schema.properties[k], x));
        ConformsIffNothingDue(rt, schema.properties[k], x);
        assert Due(rt, schema.properties[k], x, loc[1..], c) == 0;
      }
    } else {
      hide Local;
      assert Child(schema, Obj(fields'), loc[0]) == Child(schema, Obj(fields), loc[0]);
    }
  }

  lemma NothingAtNull(rt: Runtime, schema: SchemaNode, fields: map<string, Value>, k: string, loc: seq<Step>,
                      c: Complaint)
    requires (k in fields ==> fields[k] == Null) && loc != [] && loc[0] == Field(k)
    ensures Due(rt, schema, Obj(fields), loc, c) == 0
  {
    hide Local;
    var child := Child(schema, Obj(fields), loc[0]);
    assert child.Some? ==> At(child.value.0, child.value.1, loc[1..]) == None;
  }

  /** Taking a conforming field away from an object adds exactly them. */
  lemma RemovingRequired(rt: Runtime, schema: SchemaNode, fields: map<string, Value>, k: string,
                         path: seq<Step>, before: seq<Violation>, after: seq<Violation>)
    requires schema.kind == "object" && k in fields && !fields[k].Null?
    requires k in schema.properties ==> Conforms(schema.properties[k], fields[k])
    requires Exact(rt, schema, Obj(fields), path, before) && Exact(rt, schema, Obj(fields - {k}), path, after)
    ensures multiset(after) == multiset(before)[Violation(path, Missing(k)) := multiset(schema.required)[k]]
  {
    assert (fields - {k})[k := fields[k]] == fields;
    hide Exact, Conforms;
    SupplyingRequired(rt, schema, fields - {k}, k, fields[k], path, after, before);
  }

  // ---- Keywords that are never looked at ----

  /**
    The schema without what the checker ignores: lengths everywhere, bounds except on integers,
    enumerations except on strings, members except on objects, items except on arrays.
   */
  function Erased(schema: SchemaNode): SchemaNode
    decreases schema
  {
    SchemaNode(
      schema.kind,
      if schema.kind == "object" then schema.required else [],
      if schema.kind == "object" then map k | k in schema.properties :: Erased(schema.properties[k]) else map[],
      if schema.kind == "array" && schema.items.Some? then Some(Erased(schema.items.value)) else None,
      if schema.kind == "string" then schema.enum else [],
      if schema.kind == "integer" then schema.minimum else None,
      if schema.kind == "integer" then schema.maximum else None,
      None,
      None)
  }

  /** Ignored keywords do not change a single error. */
  lemma ErasingChangesNoError(rt: Runtime, schema: SchemaNode, v: Value, path: seq<Step>, errs: seq<Violation>)
    ensures Exact(rt, schema, v, path, errs) <==> Exact(rt, Erased(schema), v, path, errs)
  {
    forall loc, c ensures Due(rt, Erased(schema), v, loc, c) == Due(rt, schema, v, loc, c) {
      ErasingKeepsDue(rt, schema, v, loc, c);
    }
    hide Due, Erased;
  }

  lemma {:induction false} ErasingKeepsDue(rt: Runtime, schema: SchemaNode, v: Value, loc: seq<Step>, c: Complaint)
    ensures Due(rt, Erased(schema), v, loc, c) == Due(rt, schema, v, loc, c)
    decreases |loc|
  {
    if !v.Null? && loc != [] {
      var child := Child(schema, v, loc[0]);
      assert Child(Erased(schema), v, loc[0]) ==
        if child.None? then None else Some((Erased(child.value.0), child.value.1));
      if child.Some? { ErasingKeepsDue(rt, child.value.0, child.value.1, loc[1..], c); }
    }
  }
}
