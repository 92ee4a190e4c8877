/** The mapping engine: a template resolved against a payload and, inside `$each`, an item. */
module Engine {
  import opened Values
  import opened References
  import opened Conversions

  /** What references resolve against; `item` is `Null` outside `$each`. */
  datatype Context = Context(payload: map<string, Value>, item: Value)

  // ---- References ----

  /** The fields a scope offers to paths; an item that is not an object offers none. */
  function Lookup(scope: Scope, ctx: Context): map<string, Value> {
    match scope
    case Payload => ctx.payload
    case Item => if ctx.item.Obj? then ctx.item.fields else map[]
  }

  function ScopeValue(scope: Scope, ctx: Context): Value {
    match scope
    case Payload => Obj(ctx.payload)
    case Item => ctx.item
  }

  /** Following the segments of a path; `Null` where one is missing or does not lead to an object. */
  function Walk(data: map<string, Value>, parts: seq<string>): (v: Value)
    requires |parts| >= 1
    decreases |parts|
  {
    if parts[0] !in data then Null
    else if |parts| == 1 then data[parts[0]]
    else if data[parts[0]].Obj? then Walk(data[parts[0]].fields, parts[1..])
    else Null
  }

  function NestedField(data: map<string, Value>, path: string): Value {
    if path == "" then Null else Walk(data, Split(path))
  }

  method GetNestedField(data: map<string, Value>, path: string) returns (v: Value)
    ensures v == NestedField(data, path)
  {
    if path == "" { return Null; }
    var parts := Split(path);
    var current := data;
    for i := 0 to |parts|
      invariant i < |parts| ==> Walk(current, parts[i..]) == Walk(data, parts)
      invariant i < |parts|
    {
      assert |parts[i..]| == |parts| - i && parts[i..][1..] == parts[i + 1..];
      if parts[i] !in current { return Null; }
      if i == |parts| - 1 { return current[parts[i]]; }
      if !current[parts[i]].Obj? { return Null; }
      current := current[parts[i]].fields;
    }
  }

  /** A longer path continues from where the shorter one led. */
  lemma {:induction false} WalkComposes(data: map<string, Value>, front: seq<string>, back: seq<string>)
    requires |front| >= 1 && |back| >= 1
    ensures
      var middle := Walk(data, front);
      Walk(data, front + back) == if middle.Obj? then Walk(middle.fields, back) else Null
    decreases |front|
  {
    assert (front + back)[1..] == front[1..] + back;
    if |front| == 1 {
      assert front + back == front + ([] + back) && front[1..] + back == back;
    } else if front[0] in data && data[front[0]].Obj? {
      WalkComposes(data[front[0]].fields, front[1..], back);
    }
  }

  function RefValue(scope: Scope, path: string, ctx: Context): Value {
    if path == "" then ScopeValue(scope, ctx) else NestedField(Lookup(scope, ctx), path)
  }

  function FirstMatch(s: string, i: nat): (m: Option<Match>)
    ensures m.Some? ==> i <= m.value.start < m.value.end <= |s| && MatchAt(s, m.value.start) == m
    ensures m.None? ==> forall k :: i <= k < |s| ==> MatchAt(s, k).None?
    ensures m.Some? ==> forall k :: i <= k < m.value.start ==> MatchAt(s, k).None?
    decreases |s| - i
  {
    if i >= |s| then None
    else if MatchAt(s, i).Some? then MatchAt(s, i)
    else FirstMatch(s, i + 1)
  }

  /** What a match is replaced by: its own text is matched again to get at scope and path. */
  function Replacement(rt: Runtime, text: string, ctx: Context): string {
    match MatchAt(text, 0)
    case Some(m) => ToText(rt, RefValue(m.scope, m.path, ctx))
    case None => text
  }

  /** `ReplaceAllStringFunc` from position `i` on. */
  function ReplaceAll(rt: Runtime, s: string, i: nat, ctx: Context): string
    decreases |s| - i
  {
    if i >= |s| then ""
    else
      var m := MatchAt(s, i);
      if m.None? then [s[i]] + ReplaceAll(rt, s, i + 1, ctx)
      else Replacement(rt, s[m.value.start..m.value.end], ctx) + ReplaceAll(rt, s, m.value.end, ctx)
  }

  function ResolveField(rt: Runtime, expr: string, ctx: Context): (v: Value) {
    var m := FirstMatch(expr, 0);
    if m.None? then Str(expr)
    else if m.value.start == 0 && m.value.end == |expr| then RefValue(m.value.scope, m.value.path, ctx)
    else Str(ReplaceAll(rt, expr, 0, ctx))
  }

  function RenderToken(rt: Runtime, token: Token, ctx: Context): string {
    match token
    case Lit(text) => text
    case Ref(scope, path) => ToText(rt, RefValue(scope, path, ctx))
  }

  function Render(rt: Runtime, tokens: seq<Token>, ctx: Context): string {
    if tokens == [] then "" else RenderToken(rt, tokens[0], ctx) + Render(rt, tokens[1..], ctx)
  }

  /**
    Resolving a string is cutting it into tokens and rendering each one, once: a string that is
    a single reference yields the value itself, anything else the tokens' texts in order. What a
    reference puts into the text is never looked at again.
   */
  lemma ResolveFieldRendersTokens(rt: Runtime, expr: string, ctx: Context)
    ensures
      var tokens := Tokenise(expr);
      ResolveField(rt, expr, ctx) ==
        if |tokens| == 1 && tokens[0].Ref? then RefValue(tokens[0].scope, tokens[0].path, ctx)
        else Str(Render(rt, tokens, ctx))
  {
    hide MatchAt, RefValue, ToText;
    OneTokenIsACoveringMatch(expr);
    ReplaceAllRenders(rt, expr, 0, 0, ctx);
    assert expr[0..0] == "";
    if FirstMatch(expr, 0).None? {
      NothingToReplace(rt, expr, 0, ctx);
      assert expr[0..] == expr;
    }
  }

  lemma {:induction false} NothingToReplace(rt: Runtime, s: string, i: nat, ctx: Context)
    requires i <= |s| && forall k :: i <= k < |s| ==> MatchAt(s, k).None?
    ensures ReplaceAll(rt, s, i, ctx) == s[i..]
    decreases |s| - i
  {
    hide MatchAt;
    if i < |s| {
      NothingToReplace(rt, s, i + 1, ctx);
      assert s[i..] == [s[i]] + s[i + 1..];
    }
  }

  lemma {:induction false} ReplaceAllRenders(rt: Runtime, s: string, from: nat, i: nat, ctx: Context)
    requires from <= i <= |s|
    ensures s[from..i] + ReplaceAll(rt, s, i, ctx) == Render(rt, TokensFrom(s, from, i), ctx)
    decreases |s| - i
  {
    hide MatchAt, RefValue, ToText, Replacement, Render;
    if i == |s| {
      RenderLiteral(rt, s, from, i, ctx);
      assert ReplaceAll(rt, s, i, ctx) == "";
    } else if MatchAt(s, i).None? {
      ReplaceAllRenders(rt, s, from, i + 1, ctx);
      var rest := ReplaceAll(rt, s, i + 1, ctx);
      assert s[from..i + 1] + rest == s[from..i] + ([s[i]] + rest);
    } else {
      var m := MatchAt(s, i).value;
      ReplaceAllRenders(rt, s, m.end, m.end, ctx);
      assert s[m.end..m.end] + ReplaceAll(rt, s, m.end, ctx) == ReplaceAll(rt, s, m.end, ctx);
      RenderAround(rt, s, from, m, TokensFrom(s, m.end, m.end), ctx);
    }
  }

  lemma RenderLiteral(rt: Runtime, s: string, from: nat, to: nat, ctx: Context)
    requires from <= to <= |s|
    ensures Render(rt, Literal(s, from, to), ctx) == s[from..to]
  {
    if from < to { assert [Lit(s[from..to])][1..] == []; }
  }

  lemma RenderAround(rt: Runtime, s: string, from: nat, m: Match, rest: seq<Token>, ctx: Context)
    requires from <= m.start && MatchAt(s, m.start) == Some(m)
    ensures Render(rt, Literal(s, from, m.start) + ([Ref(m.scope, m.path)] + rest), ctx) ==
      s[from..m.start] + (Replacement(rt, s[m.start..m.end], ctx) + Render(rt, rest, ctx))
  {
    hide MatchAt, RefValue, ToText, Literal;
    var ref := Ref(m.scope, m.path);
    MatchOfItsText(s, m);
    RenderLiteral(rt, s, from, m.start, ctx);
    RenderSplits(rt, Literal(s, from, m.start), [ref] + rest, ctx);
    assert ([ref] + rest)[1..] == rest;
  }

  lemma {:induction false} RenderSplits(rt: Runtime, a: seq<Token>, b: seq<Token>, ctx: Context)
    ensures Render(rt, a + b, ctx) == Render(rt, a, ctx) + Render(rt, b, ctx)
  {
    hide RenderToken;
    if a == [] {
      assert a + b == b;
    } else {
      RenderSplits(rt, a[1..], b, ctx);
      assert (a + b)[1..] == a[1..] + b;
    }
  }

  /** A string that is one reference resolves to what the reference stands for. */
  lemma LoneReferenceValue(rt: Runtime, scope: Scope, path: string, ctx: Context)
    requires '}' !in path
    ensures ResolveField(rt, Spelling(scope, path), ctx) == RefValue(scope, path, ctx)
  {
    var s := Spelling(scope, path);
    assert s[0..|s|] == s;
    MatchAtComplete(s, Match(scope, path, 0, |s|));
    hide MatchAt, Spelling, RefValue;
  }
}
