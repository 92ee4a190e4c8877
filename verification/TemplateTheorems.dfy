/** What every run of the template interpreter has in common, whatever order object keys come in. */
module TemplateTheorems {
  import opened Values
  import opened Conversions
  import opened Engine
  import opened Templates

  // ---- Success and failure do not depend on the order ----

  /** A node has a result exactly when it resolves, and has a failure exactly when it does not. */
  lemma SuccessIsDetermined(rt: Runtime, node: Value, ctx: Context)
    ensures HasResult(rt, node, ctx) <==> Resolves(rt, node, ctx)
    ensures HasFailure(rt, node, ctx) <==> !Resolves(rt, node, ctx)
  {
    forall v | Possible(rt, node, ctx, v) ensures Resolves(rt, node, ctx) { PossibleResolves(rt, node, ctx, v); }
    forall e | Fails(rt, node, ctx, e) ensures !Resolves(rt, node, ctx) { FailureStops(rt, node, ctx, e); }
    if Resolves(rt, node, ctx) {
      var v := SomeResult(rt, node, ctx);
    } else {
      var e := SomeFailure(rt, node, ctx);
    }
  }

  lemma {:induction false} PossibleResolves(rt: Runtime, node: Value, ctx: Context, v: Value)
    requires Possible(rt, node, ctx, v)
    ensures Resolves(rt, node, ctx)
    decreases node
  {
    match node
    case Obj(fields) =>
      if "$source" !in fields {
        ghost var order, values: map<string, Value> :|
          && IsOrder(order, fields.Keys) && values.Keys == fields.Keys && v == Obj(Fill(order, values))
          && forall k :: k in fields ==> Possible(rt, fields[k], ctx, values[k]);
        forall k | k in fields ensures Resolves(rt, fields[k], ctx) {
          PossibleResolves(rt, fields[k], ctx, values[k]);
        }
      } else if "$each" in fields {
        var elems := EachSource(rt, fields, ctx).value;
        forall i | 0 <= i < |elems| ensures Resolves(rt, fields["$each"], Inner(ctx, elems[i])) {
          PossibleResolves(rt, fields["$each"], Inner(ctx, elems[i]), v.elems[i]);
        }
      }
    case Arr(elems) =>
      forall i | 0 <= i < |elems| ensures Resolves(rt, elems[i], ctx) {
        PossibleResolves(rt, elems[i], ctx, v.elems[i]);
      }
    case _ =>
  }

  lemma {:induction false} FailureStops(rt: Runtime, node: Value, ctx: Context, e: Failure)
    requires Fails(rt, node, ctx, e)
    ensures !Resolves(rt, node, ctx)
    decreases node
  {
    match node
    case Obj(fields) =>
      if "$source" !in fields {
        var k :| k in fields && Fails(rt, fields[k], ctx, e);
        FailureStops(rt, fields[k], ctx, e);
      } else if "$each" in fields && EachSource(rt, fields, ctx).Ok? {
        var elems := EachSource(rt, fields, ctx).value;
        var i :| 0 <= i < |elems| && Fails(rt, fields["$each"], Inner(ctx, elems[i]), e);
        FailureStops(rt, fields["$each"], Inner(ctx, elems[i]), e);
      }
    case Arr(elems) =>
      var i :| 0 <= i < |elems| && Fails(rt, elems[i], ctx, e);
      FailureStops(rt, elems[i], ctx, e);
    case _ =>
  }

  ghost predicate HasResult(rt: Runtime, node: Value, ctx: Context) {
    exists v :: Possible(rt, node, ctx, v)
  }

  ghost predicate HasFailure(rt: Runtime, node: Value, ctx: Context) {
    exists e :: Fails(rt, node, ctx, e)
  }

  lemma {:induction false} SomeResult(rt: Runtime, node: Value, ctx: Context) returns (v: Value)
    requires Resolves(rt, node, ctx)
    ensures Possible(rt, node, ctx, v)
    decreases node
  {
    match node
    case Obj(fields) =>
      if "$source" !in fields {
        forall k | k in fields ensures HasResult(rt, fields[k], ctx) {
          var w := SomeResult(rt, fields[k], ctx);
        }
        var order := SomeOrder(fields.Keys);
        v := Obj(Fill(order, ResultsOf(rt, fields, ctx)));
      } else if "$each" in fields {
        var elems, each := EachSource(rt, fields, ctx).value, fields["$each"];
        forall i | 0 <= i < |elems| ensures HasResult(rt, each, Inner(ctx, elems[i])) {
          var w := SomeResult(rt, each, Inner(ctx, elems[i]));
        }
        v := Arr(seq(|elems|, i requires 0 <= i < |elems| => ResultOf(rt, each, Inner(ctx, elems[i]))));
      } else {
        v := Directive(rt, fields, ctx).value;
      }
    case Arr(elems) =>
      forall i | 0 <= i < |elems| ensures HasResult(rt, elems[i], ctx) {
        var w := SomeResult(rt, elems[i], ctx);
      }
      v := Arr(seq(|elems|, i requires 0 <= i < |elems| => ResultOf(rt, elems[i], ctx)));
    case Str(s) => v := ResolveField(rt, s, ctx);
    case _ => v := node;
  }

  ghost function ResultOf(rt: Runtime, node: Value, ctx: Context): (v: Value)
    ensures HasResult(rt, node, ctx) ==> Possible(rt, node, ctx, v)
  {
    if HasResult(rt, node, ctx) then var v :| Possible(rt, node, ctx, v); v else Null
  }

  ghost function ResultsOf(rt: Runtime, fields: map<string, Value>, ctx: Context): map<string, Value> {
    map k | k in fields :: ResultOf(rt, fields[k], ctx)
  }

  lemma {:induction false} SomeOrder(keys: set<string>) returns (order: seq<string>)
    ensures IsOrder(order, keys)
    decreases keys
  {
    if keys == {} {
      order := [];
    } else {
      var k :| k in keys;
      order := SomeOrder(keys - {k});
      order := order + [k];
    }
  }

  lemma {:induction false} SomeFailure(rt: Runtime, node: Value, ctx: Context) returns (e: Failure)
    requires !Resolves(rt, node, ctx)
    ensures Fails(rt, node, ctx, e)
    decreases node, 1
  {
    match node
    case Obj(fields) =>
      if "$source" !in fields {
        var k :| k in fields && !Resolves(rt, fields[k], ctx);
        e := SomeFailure(rt, fields[k], ctx);
      } else if "$each" in fields {
        var source := EachSource(rt, fields, ctx);
        if source.Err? {
          e := source.error;
        } else {
          e := SomeEachFailure(rt, fields, ctx, source.value);
        }
      } else {
        e := Directive(rt, fields, ctx).error;
      }
    case Arr(elems) =>
      e := SomeElementFailure(rt, elems, ctx);
    case _ => e := CannotConvert;
  }

  lemma SomeEachFailure(rt: Runtime, fields: map<string, Value>, ctx: Context, elems: seq<Value>) returns (e: Failure)
    requires "$source" in fields && "$each" in fields && EachSource(rt, fields, ctx) == Ok(elems)
    requires !Resolves(rt, Obj(fields), ctx)
    ensures Fails(rt, Obj(fields), ctx, e)
    decreases Obj(fields), 0
  {
    var each := fields["$each"];
    var stuck :| 0 <= stuck < |elems| && !Resolves(rt, each, Inner(ctx, elems[stuck]));
    var bits := seq(|elems|, i requires 0 <= i < |elems| => Resolves(rt, each, Inner(ctx, elems[i])));
    assert !bits[stuck];
    var i := FirstFalse(bits);
    e := SomeFailure(rt, each, Inner(ctx, elems[i]));
    assert forall j :: 0 <= j < i ==> bits[j] == Resolves(rt, each, Inner(ctx, elems[j]));
  }

  lemma SomeElementFailure(rt: Runtime, elems: seq<Value>, ctx: Context) returns (e: Failure)
    requires !Resolves(rt, Arr(elems), ctx)
    ensures Fails(rt, Arr(elems), ctx, e)
    decreases Arr(elems), 0
  {
    var stuck :| 0 <= stuck < |elems| && !Resolves(rt, elems[stuck], ctx);
    var bits := seq(|elems|, i requires 0 <= i < |elems| => Resolves(rt, elems[i], ctx));
    assert !bits[stuck];
    var i := FirstFalse(bits);
    e := SomeFailure(rt, elems[i], ctx);
    assert forall j :: 0 <= j < i ==> bits[j] == Resolves(rt, elems[j], ctx);
  }

  lemma FirstFalse(bits: seq<bool>) returns (i: nat)
    requires exists k :: 0 <= k < |bits| && !bits[k]
    ensures i < |bits| && !bits[i] && forall j :: 0 <= j < i ==> bits[j]
  {
    i := 0;
    while bits[i]
      invariant i <= |bits| && (forall j :: 0 <= j < i ==> bits[j]) && exists k :: i <= k < |bits| && !bits[k]
      decreases |bits| - i
    {
      i := i + 1;
    }
  }

  // ---- The resolved object does not depend on the order ----

  /** Keys that lose their `$$` to become the same key were resolved to the same value. */
  ghost predicate Agree(values: map<string, Value>) {
    forall j, k :: j in values && k in values && Strip(j) == Strip(k) ==> values[j] == values[k]
  }

  ghost predicate OrderIrrelevant(values: map<string, Value>) {
    forall a, b :: IsOrder(a, values.Keys) && IsOrder(b, values.Keys) ==> Fill(a, values) == Fill(b, values)
  }

  /** The order in which an object's keys are visited is irrelevant exactly when colliding keys agree. */
  lemma OrderIsIrrelevantIff(values: map<string, Value>)
    ensures OrderIrrelevant(values) <==> Agree(values)
  {
    if Agree(values) {
      forall a, b | IsOrder(a, values.Keys) && IsOrder(b, values.Keys) ensures Fill(a, values) == Fill(b, values) {
        SameFilling(a, b, values);
      }
    }
    if !Agree(values) {
      var j, k :| j in values && k in values && Strip(j) == Strip(k) && values[j] != values[k];
      Colliding(values, j, k);
    }
  }

  lemma {:induction false} FillHolds(order: seq<string>, values: map<string, Value>)
    requires (forall k :: k in order ==> k in values) && Agree(values)
    ensures forall k :: k in order ==> Strip(k) in Fill(order, values) && Fill(order, values)[Strip(k)] == values[k]
    ensures forall s :: s in Fill(order, values) ==> exists k :: k in order && Strip(k) == s
    decreases |order|
  {
    hide Strip;
    if order != [] {
      var front, last := order[..|order| - 1], order[|order| - 1];
      FillHolds(front, values);
      assert order == front + [last];
      forall s | s in Fill(order, values) ensures exists k :: k in order && Strip(k) == s {
        if s == Strip(last) {
          assert last in order;
        } else {
          assert s in Fill(front, values);
          var k :| k in front && Strip(k) == s;
          assert k in order;
        }
      }
    }
  }

  lemma SameFilling(a: seq<string>, b: seq<string>, values: map<string, Value>)
    requires IsOrder(a, values.Keys) && IsOrder(b, values.Keys) && Agree(values)
    ensures Fill(a, values) == Fill(b, values)
  {
    hide Strip, Fill, IsOrder, Agree;
    FillWithin(a, b, values);
    FillWithin(b, a, values);
  }

  lemma FillWithin(a: seq<string>, b: seq<string>, values: map<string, Value>)
    requires IsOrder(a, values.Keys) && IsOrder(b, values.Keys) && Agree(values)
    ensures forall s :: s in Fill(a, values) ==> s in Fill(b, values) && Fill(b, values)[s] == Fill(a, values)[s]
  {
    hide Strip, Fill, Agree;
    FillHolds(a, values);
    FillHolds(b, values);
    forall s | s in Fill(a, values) ensures s in Fill(b, values) && Fill(b, values)[s] == Fill(a, values)[s] {
      var k :| k in a && Strip(k) == s;
      assert k in b;
    }
  }

  lemma Colliding(values: map<string, Value>, j: string, k: string)
    requires j in values && k in values && Strip(j) == Strip(k) && values[j] != values[k]
    ensures !OrderIrrelevant(values)
  {
    var a := OrderEndingIn(values.Keys, j);
    var b := OrderEndingIn(values.Keys, k);
    assert Fill(a, values)[Strip(j)] == values[j];
    assert Fill(b, values)[Strip(k)] == values[k];
  }

  lemma OrderEndingIn(keys: set<string>, k: string) returns (order: seq<string>)
    requires k in keys
    ensures IsOrder(order, keys) && order != [] && order[|order| - 1] == k
  {
    order := SomeOrder(keys - {k});
    order := order + [k];
  }

  /** No object on the way has two keys that `$$` stripping makes one. */
  ghost predicate Distinct(node: Value)
    decreases node
  {
    match node
    case Obj(fields) =>
      if "$source" !in fields then
        && (forall j, k :: j in fields && k in fields && Strip(j) == Strip(k) ==> j == k)
        && forall k :: k in fields ==> Distinct(fields[k])
      else "$each" in fields ==> Distinct(fields["$each"])
    case Arr(elems) => forall i :: 0 <= i < |elems| ==> Distinct(elems[i])
    case _ => true
  }

  /** Such a template has one result at most, whatever order its keys are visited in. */
  lemma {:induction false} DistinctKeysGiveOneResult(rt: Runtime, node: Value, ctx: Context, v: Value, w: Value)
    requires Distinct(node) && Possible(rt, node, ctx, v) && Possible(rt, node, ctx, w)
    ensures v == w
    decreases node
  {
    match node
    case Obj(fields) =>
      if "$source" !in fields {
        DistinctFieldsGiveOneResult(rt, fields, ctx, v, w);
      } else if "$each" in fields {
        var elems := EachSource(rt, fields, ctx).value;
        forall i | 0 <= i < |elems| ensures v.elems[i] == w.elems[i] {
          DistinctKeysGiveOneResult(rt, fields["$each"], Inner(ctx, elems[i]), v.elems[i], w.elems[i]);
        }
      }
    case Arr(elems) =>
      forall i | 0 <= i < |elems| ensures v.elems[i] == w.elems[i] {
        DistinctKeysGiveOneResult(rt, elems[i], ctx, v.elems[i], w.elems[i]);
      }
    case _ =>
  }

  lemma {:induction false} DistinctFieldsGiveOneResult(
    rt: Runtime, fields: map<string, Value>, ctx: Context, v: Value, w: Value)
    requires "$source" !in fields && Distinct(Obj(fields))
    requires Possible(rt, Obj(fields), ctx, v) && Possible(rt, Obj(fields), ctx, w)
    ensures v == w
    decreases Obj(fields), 0
  {
    hide Distinct, Possible, Fill, IsOrder, Strip, Agree;
    DistinctBelow(fields);
    var a, xs := Visit(rt, fields, ctx, v);
    var b, ys := Visit(rt, fields, ctx, w);
    forall k | k in fields ensures xs[k] == ys[k] {
      assert fields[k] < Obj(fields);
      DistinctKeysGiveOneResult(rt, fields[k], ctx, xs[k], ys[k]);
    }
    assert xs == ys;
    DistinctKeysAgree(fields, xs);
    SameFilling(a, b, xs);
  }

  lemma DistinctBelow(fields: map<string, Value>)
    requires "$source" !in fields && Distinct(Obj(fields))
    ensures forall k :: k in fields ==> Distinct(fields[k])
  {
  }

  lemma DistinctKeysAgree(fields: map<string, Value>, values: map<string, Value>)
    requires "$source" !in fields && Distinct(Obj(fields)) && values.Keys == fields.Keys
    ensures Agree(values)
  {
    hide Strip;
  }

  lemma Visit(rt: Runtime, fields: map<string, Value>, ctx: Context, v: Value)
    returns (order: seq<string>, values: map<string, Value>)
    requires "$source" !in fields && Possible(rt, Obj(fields), ctx, v)
    ensures IsOrder(order, fields.Keys) && values.Keys == fields.Keys && v == Obj(Fill(order, values))
    ensures forall k :: k in fields ==> Possible(rt, fields[k], ctx, values[k])
  {
    order, values :|
      && IsOrder(order, fields.Keys) && values.Keys == fields.Keys && v == Obj(Fill(order, values))
      && forall k :: k in fields ==> Possible(rt, fields[k], ctx, values[k]);
  }

  // ---- Directives ----

  /**
    `$type` comes before `$format`: a directive that asks for an integer and a date yields the date
    of exactly the integer that its source converts to, and fails exactly when there is none.
   */
  lemma IntegersAreFormattedAsDates(rt: Runtime, fields: map<string, Value>, ctx: Context, format: string)
    requires "$source" in fields && fields["$source"].Str?
    requires "$type" in fields && fields["$type"] == Str("integer")
    requires "$format" in fields && fields["$format"] == Str(format)
    ensures
      var integer := ConvertType(rt, ResolveField(rt, fields["$source"].s, ctx), "integer");
      Directive(rt, fields, ctx) ==
        if integer.Err? then Err(integer.error) else Ok(Str(rt.date(ToInt64(integer.value), format)))
  {
    var integer := ConvertType(rt, ResolveField(rt, fields["$source"].s, ctx), "integer");
    hide ParseInt, FormatInt, ResolveField;
    if integer.Ok? { ParseIntOfFormat(integer.value.n); }
  }

  function ToInt64(v: Value): int64 { if v.Int64? then v.n else 0 }

  /** A directive that asks for a boolean and a date never yields anything. */
  lemma BooleansAreNoDates(rt: Runtime, fields: map<string, Value>, ctx: Context)
    requires "$source" in fields && "$type" in fields && fields["$type"] == Str("boolean") && "$format" in fields
    ensures Directive(rt, fields, ctx).Err?
  {
    NoDigits("true");
    NoDigits("false");
    hide ParseInt, ParseBool, ResolveField;
  }

  lemma NoDigits(s: string)
    requires s == "true" || s == "false"
    ensures ParseInt(s) == None
  {
    assert s[|s| - 1] == 'e' && s[0] != '-' && s[0] != '+';
  }

  /** The inner item hides the outer one: what `$each` yields depends on the outer item only through its source. */
  lemma InnerItemHidesOuter(rt: Runtime, node: Value, ctx: Context, item: Value, r: Result<Value, Failure>)
    requires node.Obj? && "$source" in node.fields && "$each" in node.fields
    requires EachSource(rt, node.fields, ctx) == EachSource(rt, node.fields, ctx.(item := item))
    ensures Answers(rt, node, ctx, r) <==> Answers(rt, node, ctx.(item := item), r)
  {
    hide EachSource;
    assert forall elem :: Inner(ctx, elem) == Inner(ctx.(item := item), elem);
  }
}
