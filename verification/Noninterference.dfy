/**
  What a template can learn from a payload: the fields the loader's scanner reports and, if the
  template is tidy, nothing else.
 */
module Noninterference {
  import opened Values
  import opened References
  import opened Conversions
  import opened Engine
  import opened Templates
  import opened TemplateTheorems
  import opened Extraction

  /** No match in the string reads the payload as a whole, or by a path that starts with a dot. */
  ghost predicate Covered(s: string) {
    forall m :: m in Matches(s, 0) && m.scope == Payload ==> m.path != "" && m.path[0] != '.'
  }

  /** Every string the engine resolves in this template is covered. */
  ghost predicate Tidy(node: Value)
    decreases node
  {
    match node
    case Str(s) => Covered(s)
    case Obj(fields) =>
      if "$source" !in fields then forall k :: k in fields ==> Tidy(fields[k])
      else Tidy(fields["$source"]) && ("$each" in fields ==> Tidy(fields["$each"]))
    case Arr(elems) => forall i :: 0 <= i < |elems| ==> Tidy(elems[i])
    case _ => true
  }

  predicate SameField(p: map<string, Value>, q: map<string, Value>, f: string) {
    (f in p <==> f in q) && (f in p && f in q ==> p[f] == q[f])
  }

  /** The payloads agree on every field the template mentions. */
  ghost predicate AgreeOn(node: Value, p: map<string, Value>, q: map<string, Value>) {
    forall f :: Mentions(node, f) ==> SameField(p, q, f)
  }

  // ---- One string ----

  lemma FieldDependsOnMentions(rt: Runtime, s: string, p: map<string, Value>, q: map<string, Value>, item: Value)
    requires Covered(s) && AgreeOn(Str(s), p, q)
    ensures ResolveField(rt, s, Context(p, item)) == ResolveField(rt, s, Context(q, item))
  {
    forall m | m in Matches(s, 0)
      ensures RefValue(m.scope, m.path, Context(p, item)) == RefValue(m.scope, m.path, Context(q, item))
    {
      if m.scope == Payload { MatchDependsOnMention(s, m, p, q, item); }
    }
    hide RefValue, Covered, AgreeOn, Matches, MatchAt;
    ReplacementsAgree(rt, s, 0, Context(p, item), Context(q, item));
    FirstMatchIsListed(s, 0);
  }

  lemma MatchDependsOnMention(s: string, m: Match, p: map<string, Value>, q: map<string, Value>, item: Value)
    requires Covered(s) && AgreeOn(Str(s), p, q)
    requires m in Matches(s, 0) && m.scope == Payload
    ensures RefValue(Payload, m.path, Context(p, item)) == RefValue(Payload, m.path, Context(q, item))
  {
    hide Matches, Hits, Cut, Split;
    ScannerCoversRegex(s, m);
    CutIsTheFirstKey(m.path);
    var i :| 0 <= i < |Hits(s, 0)| && Hits(s, 0)[i] == Hit(m.start, Cut(m.path));
    assert Reports(Hits(s, 0), Cut(m.path));
    assert SameField(p, q, Split(m.path)[0]);
  }

  lemma {:induction false} ReplacementsAgree(rt: Runtime, s: string, i: nat, a: Context, b: Context)
    requires forall m :: m in Matches(s, i) ==> RefValue(m.scope, m.path, a) == RefValue(m.scope, m.path, b)
    ensures ReplaceAll(rt, s, i, a) == ReplaceAll(rt, s, i, b)
    decreases |s| - i
  {
    hide MatchAt, RefValue, ToText;
    if i < |s| && MatchAt(s, i).None? {
      ReplacementsAgree(rt, s, i + 1, a, b);
    } else if i < |s| {
      var m := MatchAt(s, i).value;
      assert m in Matches(s, i);
      MatchOfItsText(s, m);
      ReplacementsAgree(rt, s, m.end, a, b);
    }
  }

  lemma {:induction false} FirstMatchIsListed(s: string, i: nat)
    ensures FirstMatch(s, i).Some? ==> FirstMatch(s, i).value in Matches(s, i)
    decreases |s| - i
  {
    hide MatchAt;
    if i < |s| && MatchAt(s, i).None? { FirstMatchIsListed(s, i + 1); }
  }

  // ---- Whole templates ----

  /**
    Payloads that agree on the mentioned fields cannot be told apart by a tidy template: it has
    the same results and the same failures for both, through nested `$each` scopes as well.
   */
  lemma TemplatesReadOnlyMentionedFields(
    rt: Runtime, node: Value, p: map<string, Value>, q: map<string, Value>, item: Value, r: Result<Value, Failure>)
    requires Tidy(node) && AgreeOn(node, p, q)
    ensures Answers(rt, node, Context(p, item), r) <==> Answers(rt, node, Context(q, item), r)
  {
    hide Possible, Resolves, Fails, Tidy;
    Symmetric(node, p, q);
    SameAnswers(rt, node, p, q, item, r);
    SameAnswers(rt, node, q, p, item, r);
  }

  lemma Symmetric(node: Value, p: map<string, Value>, q: map<string, Value>)
    requires AgreeOn(node, p, q)
    ensures AgreeOn(node, q, p)
  {
    hide Mentions;
  }

  lemma SameAnswers(
    rt: Runtime, node: Value, p: map<string, Value>, q: map<string, Value>, item: Value, r: Result<Value, Failure>)
    requires Tidy(node) && AgreeOn(node, p, q) && AgreeOn(node, q, p)
    ensures Answers(rt, node, Context(p, item), r) ==> Answers(rt, node, Context(q, item), r)
  {
    hide Possible, Resolves, Fails, Tidy, AgreeOn;
    if !Answers(rt, node, Context(p, item), r) { return; }
    if Resolves(rt, node, Context(p, item)) { ResolvesToo(rt, node, p, q, item); }
    if Resolves(rt, node, Context(q, item)) { ResolvesToo(rt, node, q, p, item); }
    match r
    case Ok(v) => PossibleToo(rt, node, p, q, item, v);
    case Err(e) => FailsToo(rt, node, p, q, item, e);
  }

  /** Tidiness and agreement pass to the parts that are resolved, and directives see the same values. */
  lemma FieldsInherit(node: Value, k: string, p: map<string, Value>, q: map<string, Value>)
    requires node.Obj? && k in node.fields && Tidy(node) && AgreeOn(node, p, q)
    ensures "$source" !in node.fields || k == "$source" || k == "$each" ==> Tidy(node.fields[k])
    ensures AgreeOn(node.fields[k], p, q)
  {
    forall f | Mentions(node.fields[k], f) ensures Mentions(node, f) {}
    hide Mentions;
  }

  lemma ElementsInherit(node: Value, i: nat, p: map<string, Value>, q: map<string, Value>)
    requires node.Arr? && i < |node.elems| && Tidy(node) && AgreeOn(node, p, q)
    ensures Tidy(node.elems[i]) && AgreeOn(node.elems[i], p, q)
  {
    forall f | Mentions(node.elems[i], f) ensures Mentions(node, f) {}
    hide Mentions;
  }

  lemma SameSource(rt: Runtime, node: Value, p: map<string, Value>, q: map<string, Value>, item: Value)
    requires node.Obj? && "$source" in node.fields && Tidy(node) && AgreeOn(node, p, q)
    ensures SourceValue(rt, node.fields, Context(p, item)) == SourceValue(rt, node.fields, Context(q, item))
  {
    var source := node.fields["$source"];
    FieldsInherit(node, "$source", p, q);
    hide AgreeOn, ResolveField;
    if source.Str? { FieldDependsOnMentions(rt, source.s, p, q, item); }
  }

  lemma {:induction false} ResolvesToo(rt: Runtime, node: Value, p: map<string, Value>, q: map<string, Value>,
      item: Value)
    requires Tidy(node) && AgreeOn(node, p, q)
    requires Resolves(rt, node, Context(p, item))
    ensures Resolves(rt, node, Context(q, item))
    decreases node
  {
    hide Tidy, AgreeOn, SourceValue;
    match node
    case Obj(fields) =>
      if "$source" !in fields {
        forall k | k in fields ensures Resolves(rt, fields[k], Context(q, item)) {
          FieldsInherit(node, k, p, q);
          ResolvesToo(rt, fields[k], p, q, item);
        }
      } else {
        SameSource(rt, node, p, q, item);
        if "$each" in fields {
          FieldsInherit(node, "$each", p, q);
          var elems := EachSource(rt, fields, Context(p, item)).value;
          forall i | 0 <= i < |elems| ensures Resolves(rt, fields["$each"], Inner(Context(q, item), elems[i])) {
            ResolvesToo(rt, fields["$each"], p, q, elems[i]);
          }
        }
      }
    case Arr(elems) =>
      forall i | 0 <= i < |elems| ensures Resolves(rt, elems[i], Context(q, item)) {
        ElementsInherit(node, i, p, q);
        ResolvesToo(rt, elems[i], p, q, item);
      }
    case _ =>
  }

  lemma {:induction false} PossibleToo(
    rt: Runtime, node: Value, p: map<string, Value>, q: map<string, Value>, item: Value, v: Value)
    requires Tidy(node) && AgreeOn(node, p, q)
    requires Possible(rt, node, Context(p, item), v)
    ensures Possible(rt, node, Context(q, item), v)
    decreases node
  {
    hide AgreeOn, SourceValue, Tidy, ResolveField;
    match node
    case Str(s) => StringsAreCovered(s); FieldDependsOnMentions(rt, s, p, q, item);
    case Obj(fields) =>
      if "$source" !in fields {
        var order, values := Visit(rt, fields, Context(p, item), v);
        forall k | k in fields ensures Possible(rt, fields[k], Context(q, item), values[k]) {
          FieldsInherit(node, k, p, q);
          PossibleToo(rt, fields[k], p, q, item, values[k]);
        }
      } else {
        SameSource(rt, node, p, q, item);
        if "$each" in fields {
          FieldsInherit(node, "$each", p, q);
          var elems := EachSource(rt, fields, Context(p, item)).value;
          forall i | 0 <= i < |elems|
              ensures Possible(rt, fields["$each"], Inner(Context(q, item), elems[i]), v.elems[i]) {
            PossibleToo(rt, fields["$each"], p, q, elems[i], v.elems[i]);
          }
        }
      }
    case Arr(elems) =>
      forall i | 0 <= i < |elems| ensures Possible(rt, elems[i], Context(q, item), v.elems[i]) {
        ElementsInherit(node, i, p, q);
        PossibleToo(rt, elems[i], p, q, item, v.elems[i]);
      }
    case _ =>
  }

  lemma StringsAreCovered(s: string)
    requires Tidy(Str(s))
    ensures Covered(s)
  {
  }

  lemma {:induction false} FailsToo(
    rt: Runtime, node: Value, p: map<string, Value>, q: map<string, Value>, item: Value, e: Failure)
    requires Tidy(node) && AgreeOn(node, p, q)
    requires Fails(rt, node, Context(p, item), e)
    ensures Fails(rt, node, Context(q, item), e)
    decreases node
  {
    hide AgreeOn, SourceValue, Tidy;
    match node
    case Obj(fields) =>
      if "$source" !in fields {
        var k :| k in fields && Fails(rt, fields[k], Context(p, item), e);
        FieldsInherit(node, k, p, q);
        FailsToo(rt, fields[k], p, q, item, e);
      } else {
        SameSource(rt, node, p, q, item);
        if "$each" in fields && EachSource(rt, fields, Context(p, item)).Ok? {
          EachFailsToo(rt, node, p, q, item, e);
        }
      }
    case Arr(elems) =>
      var i :| && 0 <= i < |elems| && Fails(rt, elems[i], Context(p, item), e)
               && forall j :: 0 <= j < i ==> Resolves(rt, elems[j], Context(p, item));
      forall j | 0 <= j < i ensures Resolves(rt, elems[j], Context(q, item)) {
        ElementsInherit(node, j, p, q);
        ResolvesToo(rt, elems[j], p, q, item);
      }
      ElementsInherit(node, i, p, q);
      FailsToo(rt, elems[i], p, q, item, e);
    case _ =>
  }

  lemma {:induction false} EachFailsToo(
    rt: Runtime, node: Value, p: map<string, Value>, q: map<string, Value>, item: Value, e: Failure)
    requires node.Obj? && "$source" in node.fields && "$each" in node.fields
    requires Tidy(node) && AgreeOn(node, p, q)
    requires EachSource(rt, node.fields, Context(p, item)).Ok? && Fails(rt, node, Context(p, item), e)
    ensures Fails(rt, node, Context(q, item), e)
    decreases node, 0
  {
    hide AgreeOn, SourceValue, Tidy;
    var each, elems := node.fields["$each"], EachSource(rt, node.fields, Context(p, item)).value;
    SameSource(rt, node, p, q, item);
    FieldsInherit(node, "$each", p, q);
    var i :| && 0 <= i < |elems| && Fails(rt, each, Inner(Context(p, item), elems[i]), e)
             && forall j :: 0 <= j < i ==> Resolves(rt, each, Inner(Context(p, item), elems[j]));
    forall j | 0 <= j < i ensures Resolves(rt, each, Inner(Context(q, item), elems[j])) {
      ResolvesToo(rt, each, p, q, elems[j]);
    }
    FailsToo(rt, each, p, q, elems[i], e);
  }

  // ---- The side conditions are needed ----

  ghost predicate ReadsOnlyMentions(rt: Runtime, s: string) {
    forall p, q, item :: AgreeOn(Str(s), p, q) ==>
        ResolveField(rt, s, Context(p, item)) == ResolveField(rt, s, Context(q, item))
  }

  /** A lone payload reference reads only what the loader reports exactly when it has a path without a leading dot. */
  lemma LoneReferenceIsCheckedIff(rt: Runtime, path: string)
    requires '}' !in path
    ensures ReadsOnlyMentions(rt, Spelling(Payload, path)) <==> path != "" && path[0] != '.'
  {
    var s := Spelling(Payload, path);
    ASpellingIsOneMatch(Payload, path);
    if path != "" && path[0] != '.' {
      forall p, q, item | AgreeOn(Str(s), p, q)
        ensures ResolveField(rt, s, Context(p, item)) == ResolveField(rt, s, Context(q, item))
      {
        assert Matches(s, 0)[0].path == path;
        FieldDependsOnMentions(rt, s, p, q, item);
      }
    } else {
      ghost var q := if path == "" then map["" := Null] else Nest(Split(path), Str("x"));
      AgreesBesidesEmptyKey(s, q);
      LoneReferenceValue(rt, Payload, path, Context(map[], Null));
      LoneReferenceValue(rt, Payload, path, Context(q, Null));
      if path != "" { WalkNest(Split(path), Str("x")); }
    }
  }

  /** The empty key is never reported. */
  lemma AgreesBesidesEmptyKey(s: string, q: map<string, Value>)
    requires q.Keys == {""}
    ensures AgreeOn(Str(s), map[], q)
  {
    forall f | Mentions(Str(s), f) ensures f != "" {
      var i :| 0 <= i < |Hits(s, 0)| && Hits(s, 0)[i].field == f;
      ScannerReportsReferences(s, 0, Hits(s, 0)[i]);
      CutKeepsSomething(MatchAt(s, Hits(s, 0)[i].start).value.path);
    }
  }

  function Nest(parts: seq<string>, v: Value): (data: map<string, Value>)
    requires |parts| >= 1
    ensures data.Keys == {parts[0]}
  {
    map[parts[0] := if |parts| == 1 then v else Obj(Nest(parts[1..], v))]
  }

  lemma {:induction false} WalkNest(parts: seq<string>, v: Value)
    requires |parts| >= 1
    ensures Walk(Nest(parts, v), parts) == v
  {
    if |parts| > 1 { WalkNest(parts[1..], v); }
  }
}
