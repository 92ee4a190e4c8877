/**
  Resolving a template node: plain objects, arrays, and the directives `$source`, `$type`,
  `$format` and `$each`. Object keys are visited in whatever order the map yields them.
 */
module Templates {
  import opened Values
  import opened Conversions
  import opened Engine

  // ---- Directives ----

  /** `$source` of a directive, resolved. */
  function SourceValue(rt: Runtime, fields: map<string, Value>, ctx: Context): Result<Value, Failure>
    requires "$source" in fields
  {
    if fields["$source"].Str? then Ok(ResolveField(rt, fields["$source"].s, ctx)) else Err(SourceNotString)
  }

  /** The elements that `$each` runs over. */
  function EachSource(rt: Runtime, fields: map<string, Value>, ctx: Context): Result<seq<Value>, Failure>
    requires "$source" in fields
  {
    match SourceValue(rt, fields, ctx)
    case Err(e) => Err(e)
    case Ok(v) => if v.Arr? then Ok(v.elems) else Err(SourceNotArray)
  }

  function Typed(rt: Runtime, fields: map<string, Value>, raw: Value): Result<Value, Failure> {
    if "$type" !in fields then Ok(raw)
    else if fields["$type"].Str? then ConvertType(rt, raw, fields["$type"].s)
    else Err(TypeNotString)
  }

  function Formatted(rt: Runtime, fields: map<string, Value>, raw: Value): Result<Value, Failure> {
    if "$format" !in fields then Ok(raw)
    else if fields["$format"].Str? then FormatValue(rt, ToText(rt, raw), fields["$format"].s)
    else Err(FormatNotString)
  }

  /** A directive without `$each`: extract, then convert, then format. */
  function Directive(rt: Runtime, fields: map<string, Value>, ctx: Context): Result<Value, Failure>
    requires "$source" in fields
  {
    match SourceValue(rt, fields, ctx)
    case Err(e) => Err(e)
    case Ok(raw) =>
      match Typed(rt, fields, raw)
      case Err(e) => Err(e)
      case Ok(typed) => Formatted(rt, fields, typed)
  }

  /** The scope inside `$each`: the same payload, with the element hiding any outer item. */
  function Inner(ctx: Context, elem: Value): Context { ctx.(item := elem) }

  // ---- Object keys ----

  /** `strings.TrimPrefix(key, "$$")`. */
  function Strip(key: string): string {
    if StartsAt(key, 0, "$$") then key[2..] else key
  }

  ghost predicate IsOrder(order: seq<string>, keys: set<string>) {
    && (forall k :: k in keys <==> k in order)
    && (forall i, j :: 0 <= i < j < |order| ==> order[i] != order[j])
  }

  /** The object the loop builds when it visits keys in this order; a later key overwrites. */
  ghost function Fill(order: seq<string>, values: map<string, Value>): map<string, Value>
    requires forall k :: k in order ==> k in values
  {
    if order == [] then map[]
    else
      var last := order[|order| - 1];
      Fill(order[..|order| - 1], values)[Strip(last) := values[last]]
  }

  // ---- What a node can resolve to ----

  ghost predicate Possible(rt: Runtime, node: Value, ctx: Context, v: Value)
    decreases node
  {
    match node
    case Str(s) => v == ResolveField(rt, s, ctx)
    case Obj(fields) =>
      if "$source" !in fields then
        exists order, values: map<string, Value> ::
          && IsOrder(order, fields.Keys) && values.Keys == fields.Keys
          && v == Obj(Fill(order, values))
          && forall k :: k in fields ==> Possible(rt, fields[k], ctx, values[k])
      else if "$each" in fields then
        var source := EachSource(rt, fields, ctx);
        && source.Ok? && v.Arr? && |v.elems| == |source.value|
        && forall i :: 0 <= i < |v.elems| ==> Possible(rt, fields["$each"], Inner(ctx, source.value[i]), v.elems[i])
      else Directive(rt, fields, ctx) == Ok(v)
    case Arr(elems) =>
      && v.Arr? && |v.elems| == |elems|
      && forall i :: 0 <= i < |elems| ==> Possible(rt, elems[i], ctx, v.elems[i])
    case _ => v == node
  }

  /** The node resolves: every visited child does and no directive is at fault. */
  ghost predicate Resolves(rt: Runtime, node: Value, ctx: Context)
    decreases node
  {
    match node
    case Obj(fields) =>
      if "$source" !in fields then forall k :: k in fields ==> Resolves(rt, fields[k], ctx)
      else if "$each" in fields then
        var source := EachSource(rt, fields, ctx);
        && source.Ok?
        && forall i :: 0 <= i < |source.value| ==> Resolves(rt, fields["$each"], Inner(ctx, source.value[i]))
      else Directive(rt, fields, ctx).Ok?
    case Arr(elems) => forall i :: 0 <= i < |elems| ==> Resolves(rt, elems[i], ctx)
    case _ => true
  }

  /** The node can fail this way: arrays report their first fault, objects any one of theirs. */
  ghost predicate Fails(rt: Runtime, node: Value, ctx: Context, e: Failure)
    decreases node
  {
    match node
    case Obj(fields) =>
      if "$source" !in fields then exists k :: k in fields && Fails(rt, fields[k], ctx, e)
      else if "$each" in fields then
        var source := EachSource(rt, fields, ctx);
        match source
        case Err(e') => e == e'
        case Ok(elems) =>
          exists i :: && 0 <= i < |elems| && Fails(rt, fields["$each"], Inner(ctx, elems[i]), e)
                      && forall j :: 0 <= j < i ==> Resolves(rt, fields["$each"], Inner(ctx, elems[j]))
      else Directive(rt, fields, ctx) == Err(e)
    case Arr(elems) =>
      exists i :: 0 <= i < |elems| && Fails(rt, elems[i], ctx, e) && forall j :: 0 <= j < i ==>
          Resolves(rt, elems[j], ctx)
    case _ => false
  }

  // ---- The interpreter ----

  ghost predicate Answers(rt: Runtime, node: Value, ctx: Context, r: Result<Value, Failure>) {
    match r
    case Ok(v) => Possible(rt, node, ctx, v) && Resolves(rt, node, ctx)
    case Err(e) => Fails(rt, node, ctx, e) && !Resolves(rt, node, ctx)
  }

  method ResolveNode(rt: Runtime, node: Value, ctx: Context) returns (r: Result<Value, Failure>)
    ensures Answers(rt, node, ctx, r)
    decreases node, 2
  {
    match node {
      case Str(s) => r := Ok(ResolveField(rt, s, ctx));
      case Obj(fields) =>
        if "$source" in fields {
          r := ResolveSourceDirective(rt, node, ctx);
        } else {
          r := ResolveObject(rt, node, ctx);
        }
      case Arr(elems) => r := ResolveArray(rt, node, ctx);
      case _ => r := Ok(node);
    }
  }

  method ResolveObject(rt: Runtime, node: Value, ctx: Context) returns (r: Result<Value, Failure>)
    requires node.Obj? && "$source" !in node.fields
    ensures Answers(rt, node, ctx, r)
    decreases node, 1
  {
    var fields := node.fields;
    var keys, result := fields.Keys, map[];
    ghost var order, values: map<string, Value> := [], map[];
    NothingVisited(rt, fields, ctx);
    while keys != {}
      invariant keys <= fields.Keys
      invariant Visited(rt, fields, ctx, keys, order, values)
      invariant result == Fill(order, values)
      decreases keys
    {
      hide Possible, Resolves, Fails, Visited, Strip, Fill;
      var key :| key in keys;
      assert fields[key] < node;
      var resolved := ResolveNode(rt, fields[key], ctx);
      if resolved.Err? {
        FieldFails(rt, node, ctx, key, resolved.error);
        return resolved;
      }
      VisitOne(rt, fields, ctx, keys, order, values, key, resolved.value);
      result := result[Strip(key) := resolved.value];
      order, values, keys := order + [key], values[key := resolved.value], keys - {key};
    }
    FieldsResolve(rt, node, ctx, order, values);
    r := Ok(Obj(result));
  }

  /** Keys outside `remaining` have been visited in this order, with these results. */
  ghost predicate Visited(rt: Runtime, fields: map<string, Value>, ctx: Context,
                          remaining: set<string>, order: seq<string>, values: map<string, Value>) {
    && IsOrder(order, fields.Keys - remaining) && values.Keys == fields.Keys - remaining
    && (forall k :: k in order ==> k in values)
    && forall k :: k in values ==> Possible(rt, fields[k], ctx, values[k]) && Resolves(rt, fields[k], ctx)
  }

  lemma NothingVisited(rt: Runtime, fields: map<string, Value>, ctx: Context)
    ensures Visited(rt, fields, ctx, fields.Keys, [], map[])
  {
  }

  lemma VisitOne(rt: Runtime, fields: map<string, Value>, ctx: Context, remaining: set<string>,
                 order: seq<string>, values: map<string, Value>, key: string, v: Value)
    requires remaining <= fields.Keys && key in remaining
    requires Visited(rt, fields, ctx, remaining, order, values)
    requires Possible(rt, fields[key], ctx, v) && Resolves(rt, fields[key], ctx)
    ensures Visited(rt, fields, ctx, remaining - {key}, order + [key], values[key := v])
    ensures Fill(order + [key], values[key := v]) == Fill(order, values)[Strip(key) := v]
  {
    hide Possible, Resolves;
    FillIgnoresOthers(order, values, key, v);
  }

  method ResolveArray(rt: Runtime, node: Value, ctx: Context) returns (r: Result<Value, Failure>)
    requires node.Arr?
    ensures Answers(rt, node, ctx, r)
    decreases node, 1
  {
    var result := [];
    for i := 0 to |node.elems|
      invariant |result| == i
      invariant forall j :: 0 <= j < i ==>
          Possible(rt, node.elems[j], ctx, result[j]) && Resolves(rt, node.elems[j], ctx)
    {
      hide Possible, Resolves, Fails;
      var resolved := ResolveNode(rt, node.elems[i], ctx);
      if resolved.Err? {
        ElementFails(rt, node, ctx, i, resolved.error);
        return resolved;
      }
      result := result + [resolved.value];
    }
    r := Ok(Arr(result));
  }

  method ResolveSourceDirective(rt: Runtime, node: Value, ctx: Context) returns (r: Result<Value, Failure>)
    requires node.Obj? && "$source" in node.fields
    ensures Answers(rt, node, ctx, r)
    decreases node, 1
  {
    if "$each" in node.fields {
      r := ResolveEachDirective(rt, node, ctx);
    } else {
      r := Directive(rt, node.fields, ctx);
    }
  }

  method ResolveEachDirective(rt: Runtime, node: Value, ctx: Context) returns (r: Result<Value, Failure>)
    requires node.Obj? && "$source" in node.fields && "$each" in node.fields
    ensures Answers(rt, node, ctx, r)
    decreases node, 0
  {
    var source := EachSource(rt, node.fields, ctx);
    if source.Err? { return Err(source.error); }
    var result := [];
    var each := node.fields["$each"];
    for i := 0 to |source.value|
      invariant |result| == i
      invariant forall j :: 0 <= j < i ==>
        && Possible(rt, each, Inner(ctx, source.value[j]), result[j])
        && Resolves(rt, each, Inner(ctx, source.value[j]))
    {
      hide Possible, Resolves, Fails;
      var mapped := ResolveNode(rt, each, Inner(ctx, source.value[i]));
      if mapped.Err? {
        EachFails(rt, node, ctx, i, mapped.error);
        return mapped;
      }
      result := result + [mapped.value];
    }
    r := Ok(Arr(result));
  }

  lemma FieldFails(rt: Runtime, node: Value, ctx: Context, key: string, e: Failure)
    requires node.Obj? && "$source" !in node.fields && key in node.fields
    requires Fails(rt, node.fields[key], ctx, e) && !Resolves(rt, node.fields[key], ctx)
    ensures Fails(rt, node, ctx, e) && !Resolves(rt, node, ctx)
  {
  }

  lemma FieldsResolve(rt: Runtime, node: Value, ctx: Context, order: seq<string>, values: map<string, Value>)
    requires node.Obj? && "$source" !in node.fields
    requires Visited(rt, node.fields, ctx, {}, order, values)
    ensures Possible(rt, node, ctx, Obj(Fill(order, values))) && Resolves(rt, node, ctx)
  {
    assert node.fields.Keys - {} == node.fields.Keys;
    hide Fill, IsOrder;
  }

  lemma ElementFails(rt: Runtime, node: Value, ctx: Context, i: nat, e: Failure)
    requires node.Arr? && i < |node.elems|
    requires Fails(rt, node.elems[i], ctx, e) && !Resolves(rt, node.elems[i], ctx)
    requires forall j :: 0 <= j < i ==> Resolves(rt, node.elems[j], ctx)
    ensures Fails(rt, node, ctx, e) && !Resolves(rt, node, ctx)
  {
  }

  lemma EachFails(rt: Runtime, node: Value, ctx: Context, i: nat, e: Failure)
    requires node.Obj? && "$source" in node.fields && "$each" in node.fields
    requires EachSource(rt, node.fields, ctx).Ok? && i < |EachSource(rt, node.fields, ctx).value|
    requires
      var elems := EachSource(rt, node.fields, ctx).value;
      && Fails(rt, node.fields["$each"], Inner(ctx, elems[i]), e)
      && !Resolves(rt, node.fields["$each"], Inner(ctx, elems[i]))
      && forall j :: 0 <= j < i ==> Resolves(rt, node.fields["$each"], Inner(ctx, elems[j]))
    ensures Fails(rt, node, ctx, e) && !Resolves(rt, node, ctx)
  {
  }

  lemma {:induction false} FillIgnoresOthers(order: seq<string>, values: map<string, Value>, key: string, v: Value)
    requires (forall k :: k in order ==> k in values) && key !in order
    ensures Fill(order + [key], values[key := v]) == Fill(order, values)[Strip(key) := v]
  {
    hide Strip;
    assert (order + [key])[..|order|] == order;
    FillFrame(order, values, values[key := v]);
  }

  lemma {:induction false} FillFrame(order: seq<string>, a: map<string, Value>, b: map<string, Value>)
    requires forall k :: k in order ==> k in a && k in b && a[k] == b[k]
    ensures Fill(order, a) == Fill(order, b)
  {
    if order != [] { FillFrame(order[..|order| - 1], a, b); }
  }
}
