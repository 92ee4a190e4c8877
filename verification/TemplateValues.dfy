/**
  What templates resolve to, told by the values themselves: references spelled out, one key at a time,
  and directives with one keyword at a time.
 */
module TemplateValues {
  import opened Values
  import opened References
  import opened Conversions
  import opened Engine
  import opened Templates
  import opened TemplateTheorems
  import opened Noninterference

  predicate IsKey(k: string) { k != "" && '.' !in k && '}' !in k }

  /** The field of a value that may not be an object. */
  function FieldOf(v: Value, k: string): Value {
    if v.Obj? && k in v.fields then v.fields[k] else Null
  }

  // ---- References ----

  lemma KeyIsLookedUp(data: map<string, Value>, k: string)
    requires IsKey(k)
    ensures NestedField(data, k) == if k in data then data[k] else Null
  {
    assert IndexOf(k, '.', 0).None?;
  }

  lemma PathIsFollowed(data: map<string, Value>, k: string, rest: string)
    requires '.' !in k && rest != ""
    ensures NestedField(data, k + "." + rest) ==
      if k in data && data[k].Obj? then NestedField(data[k].fields, rest) else Null
  {
    SplitFirst(k, rest);
    assert ([k] + Split(rest))[1..] == Split(rest);
  }

  /** A bare reference stands for the payload or the item as a whole. */
  lemma BareReferences(rt: Runtime, payload: map<string, Value>, item: Value)
    ensures ResolveField(rt, "@{payload}", Context(payload, item)) == Obj(payload)
    ensures ResolveField(rt, "@{item}", Context(payload, item)) == item
  {
    LoneReferenceValue(rt, Payload, "", Context(payload, item));
    LoneReferenceValue(rt, Item, "", Context(payload, item));
    hide ResolveField;
  }

  /** A reference to a key stands for that field, or for null where there is none. */
  lemma ReferencesToKeys(rt: Runtime, k: string, payload: map<string, Value>, item: Value)
    requires IsKey(k)
    ensures ResolveField(rt, "@{payload:" + k + "}", Context(payload, item)) == FieldOf(Obj(payload), k)
    ensures ResolveField(rt, "@{item:" + k + "}", Context(payload, item)) == FieldOf(item, k)
  {
    Spelled(k);
    KeyInScope(rt, Payload, k, Context(payload, item));
    KeyInScope(rt, Item, k, Context(payload, item));
    hide ResolveField, Spelling, IsKey;
  }

  lemma KeyInScope(rt: Runtime, scope: Scope, k: string, ctx: Context)
    requires IsKey(k)
    ensures ResolveField(rt, Spelling(scope, k), ctx) == FieldOf(Obj(Lookup(scope, ctx)), k)
  {
    LoneReferenceValue(rt, scope, k, ctx);
    KeyIsLookedUp(Lookup(scope, ctx), k);
    hide ResolveField, NestedField, Spelling, Lookup;
  }

  /** A longer path goes on from its first key's field, and leads nowhere if that is no object. */
  lemma ReferencesToPaths(rt: Runtime, k: string, rest: string, payload: map<string, Value>, item: Value)
    requires '.' !in k && '}' !in k && '}' !in rest && rest != ""
    ensures
      var inner := FieldOf(Obj(payload), k);
      ResolveField(rt, "@{payload:" + k + "." + rest + "}", Context(payload, item)) ==
        if inner.Obj? then ResolveField(rt, "@{payload:" + rest + "}", Context(inner.fields, item)) else Null
    ensures
      var inner := FieldOf(item, k);
      ResolveField(rt, "@{item:" + k + "." + rest + "}", Context(payload, item)) ==
        if inner.Obj? then ResolveField(rt, "@{item:" + rest + "}", Context(payload, inner)) else Null
  {
    PathInScope(rt, Payload, k, rest, Context(payload, item), Context(FieldsOf(FieldOf(Obj(payload), k)), item));
    PathInScope(rt, Item, k, rest, Context(payload, item), Context(payload, FieldOf(item, k)));
    SpelledPath(k, rest);
    Spelled(rest);
    hide ResolveField, Spelling;
  }

  function FieldsOf(v: Value): map<string, Value> { if v.Obj? then v.fields else map[] }

  lemma Spelled(path: string)
    requires path != ""
    ensures "@{payload:" + path + "}" == Spelling(Payload, path)
    ensures "@{item:" + path + "}" == Spelling(Item, path)
  {
  }

  lemma SpelledPath(k: string, rest: string)
    ensures "@{payload:" + k + "." + rest + "}" == Spelling(Payload, k + "." + rest)
    ensures "@{item:" + k + "." + rest + "}" == Spelling(Item, k + "." + rest)
  {
    assert "@{payload:" + k + "." + rest + "}" == "@{payload" + (":" + (k + "." + rest) + "}");
    assert "@{item:" + k + "." + rest + "}" == "@{item" + (":" + (k + "." + rest) + "}");
  }

  lemma PathInScope(rt: Runtime, scope: Scope, k: string, rest: string, outer: Context, inner: Context)
    requires '.' !in k && '}' !in k && '}' !in rest && rest != ""
    requires
      var data := Lookup(scope, outer);
      Lookup(scope, inner) == if k in data then FieldsOf(data[k]) else map[]
    ensures
      var data := Lookup(scope, outer);
      ResolveField(rt, Spelling(scope, k + "." + rest), outer) ==
        if k in data && data[k].Obj? then ResolveField(rt, Spelling(scope, rest), inner) else Null
  {
    LoneReferenceValue(rt, scope, k + "." + rest, outer);
    LoneReferenceValue(rt, scope, rest, inner);
    PathIsFollowed(Lookup(scope, outer), k, rest);
    hide ResolveField, NestedField, Spelling, Lookup;
  }

  /** However deep a value is nested, the path of its keys leads there. */
  lemma NestedValueIsReached(rt: Runtime, parts: seq<string>, v: Value, payload: map<string, Value>, item: Value)
    requires |parts| >= 1 && forall i :: 0 <= i < |parts| ==> IsKey(parts[i])
    ensures ResolveField(rt, "@{item:" + Join(parts) + "}", Context(payload, Obj(Nest(parts, v)))) == v
    ensures ResolveField(rt, "@{payload:" + Join(parts) + "}", Context(Nest(parts, v), item)) == v
  {
    JoinSplits(parts);
    WalkNest(parts, v);
    JoinKeepsClear(parts);
    Spelled(Join(parts));
    LoneReferenceValue(rt, Item, Join(parts), Context(payload, Obj(Nest(parts, v))));
    LoneReferenceValue(rt, Payload, Join(parts), Context(Nest(parts, v), item));
    hide ResolveField, Spelling, Join, Nest, Walk;
  }

  lemma {:induction false} JoinKeepsClear(parts: seq<string>)
    requires |parts| >= 1 && forall i :: 0 <= i < |parts| ==> IsKey(parts[i])
    ensures '}' !in Join(parts) && Join(parts) != ""
  {
    if |parts| > 1 { JoinKeepsClear(parts[1..]); }
  }

  // ---- Text around references ----

  /**
    Text without an at sign stands for itself, a reference inside a string for the text of its value,
    and what follows is resolved on its own. The value itself comes only from a lone reference.
   */
  lemma TextsConcatenate(rt: Runtime, before: string, scope: Scope, path: string, after: string, ctx: Context)
    requires '@' !in before && '}' !in path
    ensures
      var ref := Spelling(scope, path);
      var v := ResolveField(rt, before + (ref + after), ctx);
      && ToText(rt, v) == before + (ToText(rt, ResolveField(rt, ref, ctx)) + ToText(rt, ResolveField(rt, after, ctx)))
      && (before != "" || after != "" ==> v.Str?)
  {
    var ref := Spelling(scope, path);
    var s := before + (ref + after);
    TextIsReplaced(rt, s, ctx);
    TextIsReplaced(rt, after, ctx);
    LoneReferenceValue(rt, scope, path, ctx);
    ReplaceLiteral(rt, before, ref + after, 0, ctx);
    ReplaceReference(rt, before, scope, path, after, ctx);
    FirstMatchAfter(before, scope, path, after);
    hide MatchAt, Spelling, RefValue, ToText, ReplaceAll, FirstMatch;
    assert before[0..] == before;
  }

  lemma PlainText(rt: Runtime, text: string, ctx: Context)
    requires '@' !in text
    ensures ResolveField(rt, text, ctx) == Str(text)
  {
    forall k | 0 <= k < |text| ensures MatchAt(text, k).None? { MatchesStartAtAnAt(text, k); }
    hide MatchAt;
  }

  lemma TextIsReplaced(rt: Runtime, s: string, ctx: Context)
    ensures ToText(rt, ResolveField(rt, s, ctx)) == ReplaceAll(rt, s, 0, ctx)
  {
    ResolveFieldRendersTokens(rt, s, ctx);
    ReplaceAllRenders(rt, s, 0, 0, ctx);
    assert s[0..0] + ReplaceAll(rt, s, 0, ctx) == ReplaceAll(rt, s, 0, ctx);
    hide ResolveField, ReplaceAll, Tokenise, RefValue, TokensFrom;
    var tokens := TokensFrom(s, 0, 0);
    assert tokens == Tokenise(s) by { TokensStart(s); }
    if |tokens| == 1 && tokens[0].Ref? { assert tokens[1..] == []; }
  }

  lemma TokensStart(s: string)
    ensures TokensFrom(s, 0, 0) == Tokenise(s)
  {
  }

  lemma {:induction false} ReplaceLiteral(rt: Runtime, before: string, rest: string, i: nat, ctx: Context)
    requires '@' !in before && i <= |before|
    ensures ReplaceAll(rt, before + rest, i, ctx) == before[i..] + ReplaceAll(rt, before + rest, |before|, ctx)
    decreases |before| - i
  {
    hide MatchAt, Replacement;
    if i < |before| {
      MatchesStartAtAnAt(before + rest, i);
      ReplaceLiteral(rt, before, rest, i + 1, ctx);
      assert before[i..] == [before[i]] + before[i + 1..];
    }
  }

  lemma MatchInside(before: string, scope: Scope, path: string, after: string)
    requires '}' !in path
    ensures
      var ref, n := Spelling(scope, path), |before|;
      MatchAt(before + (ref + after), n) == Some(Match(scope, path, n, n + |ref|))
  {
    var ref, n := Spelling(scope, path), |before|;
    var s := before + (ref + after);
    hide Spelling;
    assert s[n..n + |ref|] == ref;
    MatchAtComplete(s, Match(scope, path, n, n + |ref|));
  }

  lemma ReplaceReference(rt: Runtime, before: string, scope: Scope, path: string, after: string, ctx: Context)
    requires '}' !in path
    ensures
      var ref := Spelling(scope, path);
      ReplaceAll(rt, before + (ref + after), |before|, ctx) ==
        ToText(rt, RefValue(scope, path, ctx)) + ReplaceAll(rt, after, 0, ctx)
  {
    hide *;
    var ref := Spelling(scope, path);
    MatchInside(before, scope, path, after);
    ReplacementOfText(rt, scope, path, ctx);
    Slices(before, ref, after);
    ReplaceMatch(rt, before + (ref + after), |before|, |before| + |ref|, ctx);
  }

  lemma ReplacementOfText(rt: Runtime, scope: Scope, path: string, ctx: Context)
    requires '}' !in path
    ensures Replacement(rt, Spelling(scope, path), ctx) == ToText(rt, RefValue(scope, path, ctx))
  {
    var s := Spelling(scope, path);
    assert s[0..|s|] == s;
    MatchAtComplete(s, Match(scope, path, 0, |s|));
    hide MatchAt, Spelling, RefValue, ToText;
  }

  lemma Slices(a: string, b: string, c: string)
    ensures (a + (b + c))[|a|..|a| + |b|] == b && (a + (b + c))[|a| + |b|..] == c
  {
  }

  lemma ReplaceMatch(rt: Runtime, s: string, i: nat, e: nat, ctx: Context)
    requires i < e <= |s| && MatchAt(s, i).Some? && MatchAt(s, i).value.end == e
    ensures ReplaceAll(rt, s, i, ctx) == Replacement(rt, s[i..e], ctx) + ReplaceAll(rt, s[e..], 0, ctx)
  {
    ReplaceTail(rt, s, e, 0, ctx);
  }

  /** Matching and replacing in the tail of a string does not depend on what is before it. */
  lemma {:induction false} ReplaceTail(rt: Runtime, s: string, n: nat, i: nat, ctx: Context)
    requires n + i <= |s|
    ensures ReplaceAll(rt, s, n + i, ctx) == ReplaceAll(rt, s[n..], i, ctx)
    decreases |s| - i
  {
    hide MatchAt, Replacement;
    if n + i < |s| {
      MatchInTail(s, n, i);
      if MatchAt(s[n..], i).None? {
        ReplaceTail(rt, s, n, i + 1, ctx);
      } else {
        var e := MatchAt(s[n..], i).value.end;
        ReplaceTail(rt, s, n, e, ctx);
        assert s[n + i..n + e] == s[n..][i..e];
      }
    }
  }

  lemma MatchInTail(s: string, n: nat, i: nat)
    requires n + i < |s|
    ensures
      var m := MatchAt(s[n..], i);
      MatchAt(s, n + i) ==
        if m.None? then None else Some(m.value.(start := n + m.value.start, end := n + m.value.end))
  {
    hide MatchAt, Spelling;
    if MatchAt(s[n..], i).Some? {
      var m := MatchAt(s[n..], i).value;
      MatchAtIsTheRegex(s[n..], m);
      assert s[n + m.start..n + m.end] == s[n..][m.start..m.end];
      MatchAtIsTheRegex(s, m.(start := n + m.start, end := n + m.end));
    } else if MatchAt(s, n + i).Some? {
      var m := MatchAt(s, n + i).value;
      MatchAtIsTheRegex(s, m);
      assert s[n..][m.start - n..m.end - n] == s[m.start..m.end];
      MatchAtIsTheRegex(s[n..], m.(start := m.start - n, end := m.end - n));
    }
  }

  lemma FirstMatchAfter(before: string, scope: Scope, path: string, after: string)
    requires '@' !in before && '}' !in path
    ensures FirstMatch(before + (Spelling(scope, path) + after), 0) ==
      Some(Match(scope, path, |before|, |before| + |Spelling(scope, path)|))
  {
    MatchInside(before, scope, path, after);
    NoMatchBefore(before, Spelling(scope, path) + after);
    hide MatchAt, Spelling;
    FirstMatchIs(before + (Spelling(scope, path) + after), |before|);
  }

  lemma NoMatchBefore(before: string, rest: string)
    requires '@' !in before
    ensures forall k :: 0 <= k < |before| ==> MatchAt(before + rest, k).None?
  {
    forall k | 0 <= k < |before| ensures MatchAt(before + rest, k).None? { MatchesStartAtAnAt(before + rest, k); }
  }

  lemma FirstMatchIs(s: string, n: nat)
    requires n < |s| && MatchAt(s, n).Some? && forall k :: 0 <= k < n ==> MatchAt(s, k).None?
    ensures FirstMatch(s, 0) == MatchAt(s, n)
  {
    SomeMatch(s, 0, n);
    hide MatchAt;
  }

  lemma {:induction false} SomeMatch(s: string, i: nat, k: nat)
    requires i <= k < |s| && MatchAt(s, k).Some?
    ensures FirstMatch(s, i).Some? && FirstMatch(s, i).value.start <= k
    decreases |s| - i
  {
    hide MatchAt;
    if MatchAt(s, i).None? { SomeMatch(s, i + 1, k); }
  }

  // ---- Directives, keyword by keyword ----

  /** A directive that resolves the string `source`, with none of the other keywords. */
  predicate Plain(fields: map<string, Value>, source: string) {
    "$source" in fields && fields["$source"] == Str(source) && "$each" !in fields
  }

  /** Without `$type` and `$format` a directive yields the value of its source as it is. */
  lemma SourceAlone(rt: Runtime, fields: map<string, Value>, source: string, ctx: Context, r: Result<Value, Failure>)
    requires Plain(fields, source) && "$type" !in fields && "$format" !in fields
    ensures Answers(rt, Obj(fields), ctx, r) <==> r == Ok(ResolveField(rt, source, ctx))
  {
    hide ResolveField;
  }

  /** With `$type` alone it yields the converted value or the error of the conversion. */
  lemma TypeAlone(rt: Runtime, fields: map<string, Value>, source: string, ctx: Context, r: Result<Value, Failure>)
    requires Plain(fields, source) && "$type" in fields && "$format" !in fields
    ensures Answers(rt, Obj(fields), ctx, r) <==>
      r == match fields["$type"]
           case Str(name) => ConvertType(rt, ResolveField(rt, source, ctx), name)
           case _ => Err(TypeNotString)
  {
    hide ResolveField, ConvertType;
  }

  /** With `$format` alone it yields the date of an integer, or of a text that is one. */
  lemma FormatAlone(rt: Runtime, fields: map<string, Value>, source: string, ctx: Context, format: string,
                    r: Result<Value, Failure>)
    requires Plain(fields, source) && "$type" !in fields && "$format" in fields && fields["$format"] == Str(format)
    ensures
      match ResolveField(rt, source, ctx)
      case Int(i) => Answers(rt, Obj(fields), ctx, r) <==> r == Ok(Str(rt.date(i, format)))
      case Int64(i) => Answers(rt, Obj(fields), ctx, r) <==> r == Ok(Str(rt.date(i, format)))
      case Str(text) =>
        Answers(rt, Obj(fields), ctx, r) <==>
          r == (if ParseInt(text).Some? then Ok(Str(rt.date(ParseInt(text).value, format))) else Err(BadTimestamp))
      case _ => true
  {
    var v := ResolveField(rt, source, ctx);
    if v.Int? { ParseIntOfFormat(v.i); }
    if v.Int64? { ParseIntOfFormat(v.n); }
    hide ResolveField, ParseInt, FormatInt;
  }

  /** Keywords of the wrong type are told apart. */
  lemma KeywordsAreStrings(rt: Runtime, fields: map<string, Value>, ctx: Context, r: Result<Value, Failure>)
    requires "$source" in fields && Answers(rt, Obj(fields), ctx, r)
    ensures !fields["$source"].Str? ==> r == Err(SourceNotString)
    ensures
      var unconverted := fields["$source"].Str? && "$each" !in fields && "$type" !in fields;
      unconverted && "$format" in fields && !fields["$format"].Str? ==> r == Err(FormatNotString)
  {
    hide ResolveField;
  }

  /** `$each` resolves its template once for each element of the source, with that element as the item. */
  lemma EachElement(rt: Runtime, fields: map<string, Value>, source: string, ctx: Context, r: Result<Value, Failure>)
    requires "$source" in fields && fields["$source"] == Str(source) && "$each" in fields
    requires Answers(rt, Obj(fields), ctx, r)
    ensures
      var from := ResolveField(rt, source, ctx);
      if !from.Arr? then r == Err(SourceNotArray)
      else r.Ok? ==>
        && r.value.Arr? && |r.value.elems| == |from.elems|
        && forall i :: 0 <= i < |from.elems| ==>
             Answers(rt, fields["$each"], Context(ctx.payload, from.elems[i]), Ok(r.value.elems[i]))
  {
    hide ResolveField;
  }

  /** So a reference in the template means the field of each element, or the payload's own field. */
  lemma EachMapsKeys(rt: Runtime, a: string, k: string, ctx: Context, r: Result<Value, Failure>)
    requires IsKey(a) && IsKey(k) && a in ctx.payload && ctx.payload[a].Arr?
    ensures Answers(rt, Each(a, Str("@{item:" + k + "}")), ctx, r) ==>
      && r.Ok? && r.value.Arr? && |r.value.elems| == |ctx.payload[a].elems|
      && forall i :: 0 <= i < |r.value.elems| ==> r.value.elems[i] == FieldOf(ctx.payload[a].elems[i], k)
    ensures Answers(rt, Each(a, Str("@{payload:" + k + "}")), ctx, r) ==>
      && r.Ok? && r.value.Arr? && |r.value.elems| == |ctx.payload[a].elems|
      && forall i :: 0 <= i < |r.value.elems| ==> r.value.elems[i] == FieldOf(Obj(ctx.payload), k)
  {
    var from := ctx.payload[a].elems;
    ReferencesToKeys(rt, a, ctx.payload, ctx.item);
    if Answers(rt, Each(a, Str("@{item:" + k + "}")), ctx, r) {
      EachOfString(rt, a, "@{item:" + k + "}", ctx, r);
      forall i | 0 <= i < |from| ensures r.value.elems[i] == FieldOf(from[i], k) {
        ReferencesToKeys(rt, k, ctx.payload, from[i]);
      }
    }
    if Answers(rt, Each(a, Str("@{payload:" + k + "}")), ctx, r) {
      EachOfString(rt, a, "@{payload:" + k + "}", ctx, r);
      forall i | 0 <= i < |from| ensures r.value.elems[i] == FieldOf(Obj(ctx.payload), k) {
        ReferencesToKeys(rt, k, ctx.payload, from[i]);
      }
    }
  }

  function Each(a: string, template: Value): Value {
    Obj(map["$source" := Str("@{payload:" + a + "}"), "$each" := template])
  }

  lemma EachOfString(rt: Runtime, a: string, text: string, ctx: Context, r: Result<Value, Failure>)
    requires Answers(rt, Each(a, Str(text)), ctx, r)
    requires ResolveField(rt, "@{payload:" + a + "}", ctx).Arr?
    ensures
      var from := ResolveField(rt, "@{payload:" + a + "}", ctx).elems;
      && r.Ok? && r.value.Arr? && |r.value.elems| == |from|
      && forall i :: 0 <= i < |from| ==>
           r.value.elems[i] == ResolveField(rt, text, Context(ctx.payload, from[i]))
  {
    var fields := Each(a, Str(text)).fields;
    EachElement(rt, fields, "@{payload:" + a + "}", ctx, r);
    StringsResolve(rt, fields, ctx);
    hide ResolveField;
  }

  lemma StringsResolve(rt: Runtime, fields: map<string, Value>, ctx: Context)
    requires "$source" in fields && "$each" in fields && fields["$each"].Str? && EachSource(rt, fields, ctx).Ok?
    ensures Resolves(rt, Obj(fields), ctx)
  {
    hide EachSource;
  }

  /** Scalars other than strings stand for themselves, and arrays for their elements in order. */
  lemma LiteralsAndArrays(rt: Runtime, node: Value, ctx: Context, r: Result<Value, Failure>)
    requires !node.Obj? && Answers(rt, node, ctx, r)
    ensures match node
      case Str(s) => r == Ok(ResolveField(rt, s, ctx))
      case Arr(elems) =>
        r.Ok? ==>
          && r.value.Arr? && |r.value.elems| == |elems|
          && forall i :: 0 <= i < |elems| ==> Answers(rt, elems[i], ctx, Ok(r.value.elems[i]))
      case _ => r == Ok(node)
  {
    hide ResolveField;
  }

  // ---- Object keys ----

  /** A key that starts with two dollars stands for the rest of it, any other for itself. */
  predicate Names(key: string, name: string) {
    if |key| >= 2 && key[0] == '$' && key[1] == '$' then key == "$$" + name else key == name
  }

  /** An object without `$source` yields one field for each key, named and resolved. */
  lemma KeysLoseTwoDollars(rt: Runtime, fields: map<string, Value>, ctx: Context, v: Value)
    requires "$source" !in fields && Answers(rt, Obj(fields), ctx, Ok(v))
    ensures v.Obj?
    ensures forall k, name :: k in fields && Names(k, name) ==> name in v.fields
    ensures forall name :: name in v.fields ==>
      exists k :: k in fields && Names(k, name) && Answers(rt, fields[k], ctx, Ok(v.fields[name]))
  {
    FieldsResolveToo(rt, fields, ctx, Ok(v));
    hide *;
    var order, values := Visit(rt, fields, ctx, v);
    OrderHolds(order, fields.Keys);
    FillNames(order, values);
    forall k, name | k in fields && Names(k, name) ensures name in v.fields {
      StripNames(k, name);
    }
    forall name | name in v.fields
      ensures exists k :: k in fields && Names(k, name) && Answers(rt, fields[k], ctx, Ok(v.fields[name]))
    {
      var k :| k in order && Strip(k) == name && values[k] == v.fields[name];
      StripNames(k, name);
      AnswersMeans(rt, fields[k], ctx, values[k]);
    }
  }

  lemma AnswersMeans(rt: Runtime, node: Value, ctx: Context, v: Value)
    ensures Answers(rt, node, ctx, Ok(v)) <==> Possible(rt, node, ctx, v) && Resolves(rt, node, ctx)
  {
  }

  lemma FieldsResolveToo(rt: Runtime, fields: map<string, Value>, ctx: Context, r: Result<Value, Failure>)
    requires "$source" !in fields && r.Ok? && Answers(rt, Obj(fields), ctx, r)
    ensures Possible(rt, Obj(fields), ctx, r.value)
    ensures forall k :: k in fields ==> Resolves(rt, fields[k], ctx)
  {
  }

  lemma OrderHolds(order: seq<string>, keys: set<string>)
    requires IsOrder(order, keys)
    ensures forall k :: k in order <==> k in keys
  {
  }

  lemma StripNames(key: string, name: string)
    ensures Names(key, name) <==> Strip(key) == name
  {
  }

  lemma {:induction false} FillNames(order: seq<string>, values: map<string, Value>)
    requires forall k :: k in order ==> k in values
    ensures forall k :: k in order ==> Strip(k) in Fill(order, values)
    ensures forall name :: name in Fill(order, values) ==>
      exists k :: k in order && Strip(k) == name && values[k] == Fill(order, values)[name]
    decreases |order|
  {
    hide Strip;
    if order != [] {
      var front, last := order[..|order| - 1], order[|order| - 1];
      FillNames(front, values);
      assert order == front + [last];
      forall name | name in Fill(order, values)
        ensures exists k :: k in order && Strip(k) == name && values[k] == Fill(order, values)[name]
      {
        if name == Strip(last) {
          assert last in order;
        } else {
          var k :| k in front && Strip(k) == name && values[k] == Fill(front, values)[name];
          assert k in order;
        }
      }
    }
  }
}
