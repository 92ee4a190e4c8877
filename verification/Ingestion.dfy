/**
  The ingestion service as an object: schema validation through the cache, the idempotent upsert,
  the trigger, and the read. Other calls act between any two of its steps (`Interfere`), and the
  history of the whole table is a run of `Submission`.
 */
module Ingestion {
  import opened Values
  import opened Conversions
  import opened Configuration
  import Schema
  import SchemaCache
  import opened Submission

  datatype SubmitError =
    | EventNotFound(eventType: string)
    | BadSchema(reason: string)
    | Rejected(errs: seq<Schema.Violation>)
    | DatabaseError

  class Service {
    const rt: Runtime
    const validator: SchemaCache.Validator
    const schemas: map<string, Loaded<SchemaCache.SchemaMap>>

    var table: map<Key, Row>
    var triggers: multiset<nat>

    ghost var dropped: multiset<nat>
    ghost var calls: map<nat, Call>
    ghost var clock: int
    ghost var coincidences: multiset<nat>
    ghost var states: seq<State>
    ghost var actions: seq<Action>

    ghost function Now(): State
      reads this
    {
      State(table, triggers, dropped, calls, clock, coincidences)
    }

    ghost predicate Valid()
      reads this, validator
    {
      && validator.Valid()
      && IsRun(states, actions) && |states| > 0 && states[|states| - 1] == Now()
    }

    /** A registered event has a schema map or a load error. */
    predicate Registered(eventType: string)
    {
      eventType in schemas && schemas[eventType].error.None? && schemas[eventType].value.Some?
    }

    /** What parsing the event's schema map gives. */
    function Parsed(eventType: string): Result<Schema.SchemaNode, string>
      requires Registered(eventType)
    {
      validator.parse(schemas[eventType].value.value.content)
    }

    /** The schema parses and the payload conforms to it. */
    ghost predicate Acceptable(eventType: string, payload: map<string, Value>) {
      Registered(eventType) && Parsed(eventType).Ok? && Schema.Conforms(Parsed(eventType).value, Obj(payload))
    }

    constructor (rt: Runtime, validator: SchemaCache.Validator, schemas: map<string, Loaded<SchemaCache.SchemaMap>>)
      requires validator.Valid()
      ensures Valid() && table == map[] && triggers == multiset{} && calls == map[]
      ensures this.rt == rt && this.validator == validator && this.schemas == schemas
    {
      this.rt, this.validator, this.schemas := rt, validator, schemas;
      table, triggers := map[], multiset{};
      dropped, calls, clock, coincidences := multiset{}, map[], 0, multiset{};
      states, actions := [State(map[], multiset{}, multiset{}, map[], 0, multiset{})], [];
    }

    /** Any number of steps of other calls; this call's own stage does not move. */
    method Interfere(ghost c: nat)
      requires Valid()
      modifies this
      ensures Valid() && old(states) <= states
      ensures c in calls <==> c in old(calls)
      ensures c in calls ==> calls[c] == old(calls)[c]
    {
    }

    /** Records the step that the assignments just made. */
    ghost method Record(a: Action)
      requires IsRun(states, actions) && validator.Valid()
      requires Enabled(states[|states| - 1], a) && Now() == Next(states[|states| - 1], a)
      modifies this`states, this`actions
      ensures Valid() && old(states) <= states
      ensures states[|states| - 1] == Now()
    {
      var grown, taken := Extend(states, actions, a);
      states, actions := grown, taken;
    }

    // ---- Database and broker calls ----

    /** Stands for gen_random_uuid(): an id no row has. */
    method NewId() returns (id: nat)
      ensures forall k :: k in table ==> table[k].id != id
    {
      id := 0;
      var rest := table.Keys;
      while rest != {}
        invariant rest <= table.Keys
        invariant forall k :: k in table && k !in rest ==> table[k].id < id
        decreases rest
      {
        var k :| k in rest;
        if id <= table[k].id { id := table[k].id + 1; }
        rest := rest - {k};
      }
    }

    method UpsertNotification(ghost c: nat, params: Params) returns (r: Option<(nat, bool)>)
      requires Valid() && c in calls && calls[c] == Call(params, Upserting)
      modifies this
      ensures Valid() && old(states) <= states
      ensures c in calls
      ensures calls[c] == Call(params,
        if r.None? then Stage.Failed else if r.value.1 then Publishing(r.value.0) else Reading(r.value.0))
      ensures r.None? ==> table == old(table)
      ensures r.Some? ==>
        var k, (id, isNew) := KeyOf(params), r.value;
        && k in table && table == old(table)[k := table[k]] && table[k].id == id
        && (isNew <==> table[k].createdAt == table[k].updatedAt)
        && if k in old(table) then table[k] == old(table)[k].(updatedAt := table[k].updatedAt)
           else isNew && ViewOf(table[k]) == View(id, params.eventType, params.payload)
                && forall j :: j in old(table) ==> old(table)[j].id != id
    {
      hide IsRun;
      var failed: bool := *;
      if failed {
        calls := Moved(Now(), c, Stage.Failed);
        Record(Fault(c));
        return None;
      }
      ghost var was := Now();
      var now: int := *;
      var newId := NewId();
      var k := (params.caller, params.key);
      if k !in table {
        table := table[k := Row(newId, params.eventType, params.payload, now, now)];
        calls, clock := Moved(Now(), c, Publishing(newId)), now;
        r := Some((newId, true));
      } else {
        table := table[k := table[k].(updatedAt := now)];
        var isNew := table[k].createdAt == table[k].updatedAt;
        r := Some((table[k].id, isNew));
        calls, clock := Moved(Now(), c, if isNew then Publishing(table[k].id) else Reading(table[k].id)), now;
        if isNew { coincidences := coincidences + multiset{table[k].id}; }
      }
      assert Now() == UpsertNext(was, c, now, newId);
      Record(Upsert(c, now, newId));
    }

    method PublishTrigger(ghost c: nat, id: nat) returns (ok: bool)
      requires Valid() && c in calls && calls[c].stage == Publishing(id)
      modifies this
      ensures Valid() && old(states) <= states
      ensures c in calls && calls[c] == old(calls)[c].(stage := Reading(id))
      ensures triggers == if ok then old(triggers) + multiset{id} else old(triggers)
    {
      ok := *;
      calls := Moved(Now(), c, Reading(id));
      if ok { triggers := triggers + multiset{id}; } else { dropped := dropped + multiset{id}; }
      Record(Publish(c, ok));
    }

    method GetNotification(ghost c: nat, id: nat) returns (r: Option<View>)
      requires Valid() && c in calls && calls[c].stage == Reading(id)
      modifies this
      ensures Valid() && old(states) <= states && table == old(table)
      ensures c in calls && calls[c] == old(calls)[c].(stage := if r.None? then Stage.Failed else Answered(r.value))
      ensures r.Some? ==> KeyOf(calls[c].params) in table && r.value == ViewOf(table[KeyOf(calls[c].params)])
    {
      var failed: bool := *;
      if failed {
        calls := Moved(Now(), c, Stage.Failed);
        Record(Fault(c));
        return None;
      }
      InvInRuns(states, actions, |states| - 1);
      ReadFindsItsRow(Now(), c);
      var row := FindRow(id);
      calls := Moved(Now(), c, Answered(ViewOf(row)));
      Record(Read(c));
      r := Some(ViewOf(row));
    }

    /** SELECT by id, which is unique. */
    method FindRow(id: nat) returns (row: Row)
      requires UniqueIds(table) && RowById(table, id).Some?
      ensures RowById(table, id) == Some(row)
    {
      var rest := table.Keys;
      while true
        invariant rest <= table.Keys
        invariant forall k :: k in table && k !in rest ==> table[k].id != id
        decreases rest
      {
        var k :| k in rest;
        if table[k].id == id { return table[k]; }
        rest := rest - {k};
      }
    }

    // ---- Submit ----

    method ValidateSchema(eventType: string, payload: map<string, Value>) returns (r: Option<SubmitError>)
      requires validator.Valid()
      modifies validator
      ensures validator.Valid()
      ensures r.None? <==> Acceptable(eventType, payload)
      ensures r == Some(EventNotFound(eventType)) <==> !Registered(eventType)
      ensures forall reason :: r == Some(BadSchema(reason)) <==>
        Registered(eventType) && Parsed(eventType) == Err(reason)
      ensures r.Some? && r.value.Rejected? <==>
        Registered(eventType) && Parsed(eventType).Ok? && !Acceptable(eventType, payload)
      ensures r.Some? && r.value.Rejected? ==>
        Schema.Exact(rt, Parsed(eventType).value, Obj(payload), [], r.value.errs)
      ensures r != Some(DatabaseError)
      ensures r.Some? && r.value.Rejected? ==>
        && Registered(eventType)
        && var parsed := validator.parse(schemas[eventType].value.value.content);
           parsed.Ok? && !Schema.Conforms(parsed.value, Obj(payload))
    {
      hide Schema.Exact, Schema.Conforms;
      if eventType !in schemas || schemas[eventType].error.Some? || schemas[eventType].value.None? {
        return Some(EventNotFound(eventType));
      }
      var verdict := validator.ValidateMap(rt, schemas[eventType].value.value, payload);
      match verdict {
        case InvalidSchema(reason) => r := Some(BadSchema(reason));
        case Checked(errs) =>
          Schema.NoErrorsIffConforms(rt, Parsed(eventType).value, Obj(payload), [], errs);
          r := if |errs| > 0 then Some(Rejected(errs)) else None;
      }
    }

    /**
      Accepts a conforming payload of a registered event, writes it under its key unless something
      is there already, announces it if new, and answers with what is stored under the key. `c` is
      a fresh number for this call.
     */
    method Submit(ghost c: nat, params: Params) returns (r: Result<View, SubmitError>)
      requires Valid() && c !in calls
      modifies this, validator
      ensures Valid() && old(states) <= states
      ensures r.Ok? ==>
        && c in calls && calls[c] == Call(params, Answered(r.value))
        && KeyOf(params) in table && ViewOf(table[KeyOf(params)]) == r.value
        && (KeyOf(params) in old(table) ==> r.value == ViewOf(old(table)[KeyOf(params)]))
      ensures Acceptable(params.eventType, params.payload) <==> r.Ok? || r == Err(DatabaseError)
      ensures !Registered(params.eventType) <==> r == Err(EventNotFound(params.eventType))
      ensures forall reason :: r == Err(BadSchema(reason)) <==>
        Registered(params.eventType) && Parsed(params.eventType) == Err(reason)
      ensures r.Err? && r.error.Rejected? ==>
        && Registered(params.eventType) && Parsed(params.eventType).Ok?
        && Schema.Exact(rt, Parsed(params.eventType).value, Obj(params.payload), [], r.error.errs)
      ensures r == Err(DatabaseError) ==> c in calls && calls[c] == Call(params, Stage.Failed)
      ensures r.Err? && !r.error.DatabaseError? ==>
          table == old(table) && triggers == old(triggers) && calls == old(calls)
    {
      hide Schema.Conforms, Schema.Exact, IsRun, Next;
      var refused := ValidateSchema(params.eventType, params.payload);
      if refused.Some? { return Err(refused.value); }
      calls := calls[c := Call(params, Upserting)];
      BeginIs(states[|states| - 1], c, params);
      Record(Begin(c, params));
      r := Write(c, params);
    }

    lemma BeginIs(s: State, c: nat, params: Params)
      requires c !in s.calls
      ensures Enabled(s, Begin(c, params)) &&
          Next(s, Begin(c, params)) == s.(calls := s.calls[c := Call(params, Upserting)])
    {
    }

    /** The part of `Submit` behind validation. */
    method Write(ghost c: nat, params: Params) returns (r: Result<View, SubmitError>)
      requires Valid() && c in calls && calls[c] == Call(params, Upserting)
      modifies this
      ensures Valid() && old(states) <= states
      ensures r.Err? ==> r.error == DatabaseError && c in calls && calls[c] == Call(params, Stage.Failed)
      ensures r.Ok? ==>
        && c in calls && calls[c] == Call(params, Answered(r.value))
        && KeyOf(params) in table && ViewOf(table[KeyOf(params)]) == r.value
        && (KeyOf(params) in old(table) ==> r.value == ViewOf(old(table)[KeyOf(params)]))
    {
      hide IsRun, Next;
      ghost var first, before := |states| - 1, states;
      assert states[first].table == table;
      Interfere(c);
      var written := UpsertNotification(c, params);
      if written.None? { return Err(DatabaseError); }
      var (id, isNew) := written.value;
      Interfere(c);
      if isNew {
        var _ := PublishTrigger(c, id);
        Interfere(c);
      }
      var view := GetNotification(c, id);
      if view.None? { return Err(DatabaseError); }
      assert before <= states && states[first] == before[first];
      RowsKeptInRuns(states, actions, first, |states| - 1);
      r := Ok(view.value);
    }
  }
}
