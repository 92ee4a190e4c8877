/** Validation through the cache of parsed schemas, which is keyed on the schema map's identity. */
module SchemaCache {
  import opened Values
  import opened Conversions
  import opened Schema

  /** A loaded schema map: an object of its own, whose content never changes after loading. */
  class SchemaMap {
    const content: map<string, Value>

    constructor (content: map<string, Value>)
      ensures this.content == content
    {
      this.content := content;
    }
  }

  /** Marshalling a schema map and parsing it back into a `SchemaNode`. */
  type Parser = map<string, Value> -> Result<SchemaNode, string>

  datatype Verdict = InvalidSchema(reason: string) | Checked(errs: seq<Violation>)

  /** What parsing the map afresh and validating with the result may answer. */
  ghost predicate IsFresh(rt: Runtime, parse: Parser, schema: map<string, Value>, payload: map<string, Value>,
      verdict: Verdict) {
    match parse(schema)
    case Err(reason) => verdict == InvalidSchema(reason)
    case Ok(node) => verdict.Checked? && Exact(rt, node, Obj(payload), [], verdict.errs)
  }

  /** Entries are added and never change. */
  ghost predicate Grows(was: map<SchemaMap, SchemaNode>, now: map<SchemaMap, SchemaNode>) {
    forall m :: m in was ==> m in now && now[m] == was[m]
  }

  class Validator {
    const parse: Parser
    var cache: map<SchemaMap, SchemaNode>

    /** Every entry is the parse of the map it is keyed on. */
    ghost predicate Valid()
      reads this
    {
      forall m :: m in cache ==> parse(m.content) == Ok(cache[m])
    }

    constructor (parse: Parser)
      ensures Valid() && this.parse == parse && cache == map[]
    {
      this.parse := parse;
      cache := map[];
    }

    /** Other callers' critical sections; all that is known of them is what `ValidateMap` itself guarantees. */
    method Interfere()
      requires Valid()
      modifies this`cache
      ensures Valid() && Grows(old(cache), cache)
    {
    }

    /** Locked look-up, unlocked parsing on a miss, locked store: others may have stored in between. */
    method ValidateMap(rt: Runtime, schemaMap: SchemaMap, payload: map<string, Value>) returns (verdict: Verdict)
      requires Valid()
      modifies this`cache
      ensures Valid() && Grows(old(cache), cache)
      ensures IsFresh(rt, parse, schemaMap.content, payload, verdict)
      ensures verdict.Checked? ==> schemaMap in cache
    {
      hide Exact;
      Interfere();
      var node: SchemaNode;
      var ok := schemaMap in cache;
      if ok { node := cache[schemaMap]; }
      Interfere();
      if !ok {
        var parsed := parse(schemaMap.content);
        if parsed.Err? { return InvalidSchema(parsed.error); }
        node := parsed.value;
        Interfere();
        cache := cache[schemaMap := node];
        Interfere();
      }
      var errs := ValidateNode(rt, node, Obj(payload), []);
      verdict := Checked(errs);
    }
  }

  // ---- Any interleaving of the critical sections ----

  /** Where a call stands; schema maps are numbered here. */
  datatype Stage =
    | Looking
    | Parsing
    | Storing(node: SchemaNode)
    | Answered(parsed: Result<SchemaNode, string>)

  datatype Call = Call(schema: nat, stage: Stage)

  datatype State = State(cache: map<nat, SchemaNode>, calls: map<nat, Call>)

  datatype Action = Begin(call: nat, schema: nat) | Move(call: nat)

  predicate Enabled(s: State, a: Action) {
    match a
    case Begin(c, _) => c !in s.calls
    case Move(c) => c in s.calls && !s.calls[c].stage.Answered?
  }

  function Next(parse: Parser, contents: nat -> map<string, Value>, s: State, a: Action): State
    requires Enabled(s, a)
  {
    match a
    case Begin(c, schema) => s.(calls := s.calls[c := Call(schema, Looking)])
    case Move(c) =>
      var schema := s.calls[c].schema;
      match s.calls[c].stage
      case Looking =>
        s.(calls := s.calls[c := Call(schema, if schema in s.cache then Answered(Ok(s.cache[schema])) else Parsing)])
      case Parsing =>
        var parsed := parse(contents(schema));
        s.(calls := s.calls[c := Call(schema, if parsed.Ok? then Storing(parsed.value) else Answered(parsed))])
      case Storing(node) =>
        State(s.cache[schema := node], s.calls[c := Call(schema, Answered(Ok(node)))])
      case Answered(_) => s
  }

  ghost predicate IsRun(parse: Parser, contents: nat -> map<string, Value>, states: seq<State>, actions: seq<Action>) {
    && |states| == |actions| + 1 && states[0] == State(map[], map[])
    && forall i :: 0 <= i < |actions| ==>
         Enabled(states[i], actions[i]) && states[i + 1] == Next(parse, contents, states[i], actions[i])
  }

  /** In every interleaving, two callers missing at once included, each call answers as a fresh parse does. */
  lemma {:induction false} CacheAgreesWithFreshParsing(
    parse: Parser, contents: nat -> map<string, Value>, states: seq<State>, actions: seq<Action>, n: nat)
    requires IsRun(parse, contents, states, actions) && n < |states|
    ensures forall m :: m in states[n].cache ==> parse(contents(m)) == Ok(states[n].cache[m])
    ensures forall c :: c in states[n].calls && states[n].calls[c].stage.Answered? ==>
      states[n].calls[c].stage.parsed == parse(contents(states[n].calls[c].schema))
    ensures forall c :: c in states[n].calls && states[n].calls[c].stage.Storing? ==>
      Ok(states[n].calls[c].stage.node) == parse(contents(states[n].calls[c].schema))
  {
    if n > 0 {
      CacheAgreesWithFreshParsing(parse, contents, states, actions, n - 1);
      assert Enabled(states[n - 1], actions[n - 1]);
    }
  }
}
