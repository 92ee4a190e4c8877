/**
  Idempotent submission: the notifications table under its unique (caller, key) constraint, and
  any number of concurrent `Submit` calls, one database or broker call per step.
 */
module Submission {
  import opened Values

  datatype Params = Params(caller: string, key: string, eventType: string, payload: map<string, Value>)

  datatype Row = Row(id: nat, eventType: string, payload: map<string, Value>, createdAt: int, updatedAt: int)

  type Key = (string, string)

  /** What a caller is answered. */
  datatype View = View(id: nat, eventType: string, payload: map<string, Value>)

  datatype Stage =
    | Upserting
    | Publishing(id: nat)      // the upsert said the row is new
    | Reading(id: nat)
    | Answered(view: View)
    | Failed

  datatype Call = Call(params: Params, stage: Stage)

  /** `published` and `dropped` count triggers; `coincidences` is bookkeeping no step reads. */
  datatype State = State(
    table: map<Key, Row>,
    published: multiset<nat>,
    dropped: multiset<nat>,
    calls: map<nat, Call>,
    clock: int,                   // the time of the latest upsert
    coincidences: multiset<nat>)  // upserts of an existing row at the very instant it was created

  datatype Action =
    | Begin(call: nat, params: Params)           // the payload passed validation
    | Upsert(call: nat, now: int, newId: nat)
    | Publish(call: nat, ok: bool)
    | Read(call: nat)
    | Fault(call: nat)                           // the upsert or the read returns an error
    | Touch(key: Key, now: int)                  // a status update by someone else

  function KeyOf(params: Params): Key { (params.caller, params.key) }

  function ViewOf(row: Row): View { View(row.id, row.eventType, row.payload) }

  predicate At(s: State, c: nat, stage: Stage) { c in s.calls && s.calls[c].stage == stage }

  predicate Enabled(s: State, a: Action) {
    match a
    case Begin(c, _) => c !in s.calls
    case Upsert(c, _, newId) =>
      At(s, c, Upserting) && (KeyOf(s.calls[c].params) !in s.table ==> forall k :: k in s.table ==>
          s.table[k].id != newId)
    case Publish(c, _) => c in s.calls && s.calls[c].stage.Publishing?
    case Read(c) => c in s.calls && s.calls[c].stage.Reading?
    case Fault(c) => c in s.calls && (s.calls[c].stage.Upserting? || s.calls[c].stage.Reading?)
    case Touch(k, _) => k in s.table
  }

  function Moved(s: State, c: nat, stage: Stage): map<nat, Call>
    requires c in s.calls
  {
    s.calls[c := s.calls[c].(stage := stage)]
  }

  /** INSERT, or on conflict only `updated_at`; the row counts as new when both times are equal. */
  function UpsertNext(s: State, c: nat, now: int, newId: nat): State
    requires c in s.calls
  {
    var params := s.calls[c].params;
    var k := KeyOf(params);
    if k !in s.table then
      s.(table := s.table[k := Row(newId, params.eventType, params.payload, now, now)],
         calls := Moved(s, c, Publishing(newId)), clock := now)
    else
      var row := s.table[k].(updatedAt := now);
      var isNew := row.createdAt == row.updatedAt;
      s.(table := s.table[k := row],
         calls := Moved(s, c, if isNew then Publishing(row.id) else Reading(row.id)), clock := now,
         coincidences := if isNew then s.coincidences + multiset{row.id} else s.coincidences)
  }

  /** A trigger that cannot be published is logged and forgotten. */
  function PublishNext(s: State, c: nat, ok: bool): State
    requires c in s.calls && s.calls[c].stage.Publishing?
  {
    var id := s.calls[c].stage.id;
    s.(published := if ok then s.published + multiset{id} else s.published,
       dropped := if ok then s.dropped else s.dropped + multiset{id},
       calls := Moved(s, c, Reading(id)))
  }

  /** SELECT by id. */
  ghost function RowById(table: map<Key, Row>, id: nat): (row: Option<Row>)
    ensures row.Some? ==> exists k :: k in table && table[k] == row.value && row.value.id == id
    ensures row.None? ==> forall k :: k in table ==> table[k].id != id
  {
    if k :| k in table && table[k].id == id then Some(table[k]) else None
  }

  ghost function ReadNext(s: State, c: nat): State
    requires c in s.calls && s.calls[c].stage.Reading?
  {
    var row := RowById(s.table, s.calls[c].stage.id);
    s.(calls := Moved(s, c, if row.Some? then Answered(ViewOf(row.value)) else Failed))
  }

  ghost function Next(s: State, a: Action): State
    requires Enabled(s, a)
  {
    match a
    case Begin(c, params) => s.(calls := s.calls[c := Call(params, Upserting)])
    case Upsert(c, now, newId) => UpsertNext(s, c, now, newId)
    case Publish(c, ok) => PublishNext(s, c, ok)
    case Read(c) => ReadNext(s, c)
    case Fault(c) => s.(calls := Moved(s, c, Failed))
    case Touch(k, now) => s.(table := s.table[k := s.table[k].(updatedAt := now)])
  }

  ghost predicate IsRun(states: seq<State>, actions: seq<Action>) {
    && |states| == |actions| + 1
    && states[0].table == map[] && states[0].calls == map[]
    && states[0].published == states[0].dropped == states[0].coincidences == multiset{}
    && forall i :: 0 <= i < |actions| ==> Enabled(states[i], actions[i]) && states[i + 1] == Next(states[i], actions[i])
  }

  // ---- What every step keeps ----

  ghost predicate UniqueIds(table: map<Key, Row>) {
    forall j, k :: j in table && k in table && table[j].id == table[k].id ==> j == k
  }

  /** What a call carries is what the row under its key says. */
  predicate CallOk(table: map<Key, Row>, call: Call) {
    var k := KeyOf(call.params);
    match call.stage
    case Publishing(id) => k in table && table[k].id == id
    case Reading(id) => k in table && table[k].id == id
    case Answered(view) => k in table && ViewOf(table[k]) == view
    case _ => true
  }

  ghost predicate CallsOk(table: map<Key, Row>, calls: map<nat, Call>) {
    forall c :: c in calls ==> CallOk(table, calls[c])
  }

  ghost predicate HasId(table: map<Key, Row>, id: nat) {
    exists k :: k in table && table[k].id == id
  }

  /** Calls that still have to publish a trigger for this id. */
  function Waiting(calls: map<nat, Call>, id: nat): set<nat> {
    set c | c in calls && calls[c].stage == Publishing(id)
  }

  /** A row was announced, dropped or is about to be announced once, and once more per coincidence. */
  ghost predicate CountedOk(s: State, id: nat) {
    s.published[id] + s.dropped[id] + |Waiting(s.calls, id)| == s.coincidences[id] + (if HasId(s.table, id) then 1
        else 0)
  }

  ghost predicate Counted(s: State) {
    forall id: nat :: CountedOk(s, id) && (!HasId(s.table, id) ==> s.coincidences[id] == 0)
  }

  ghost predicate Inv(s: State) {
    UniqueIds(s.table) && CallsOk(s.table, s.calls) && Counted(s)
  }

  /** Rows stay, with their identity and content. */
  ghost predicate RowsKept(was: map<Key, Row>, now: map<Key, Row>) {
    forall k :: k in was ==> k in now && ViewOf(now[k]) == ViewOf(was[k]) && now[k].createdAt == was[k].createdAt
  }

  lemma StepKeepsRows(s: State, a: Action)
    requires Enabled(s, a) && UniqueIds(s.table)
    ensures RowsKept(s.table, Next(s, a).table) && UniqueIds(Next(s, a).table)
  {
  }

  lemma KeptRowsKeepCalls(was: map<Key, Row>, now: map<Key, Row>, calls: map<nat, Call>)
    requires RowsKept(was, now) && CallsOk(was, calls)
    ensures CallsOk(now, calls)
  {
  }

  lemma StepKeepsCalls(s: State, a: Action)
    requires Enabled(s, a) && UniqueIds(s.table) && CallsOk(s.table, s.calls)
    ensures CallsOk(Next(s, a).table, Next(s, a).calls)
  {
    StepKeepsRows(s, a);
    KeptRowsKeepCalls(s.table, Next(s, a).table, s.calls);
    hide RowsKept, UniqueIds;
    if a.Read? { ReadFindsItsRow(s, a.call); }
  }

  /** The read after the upsert finds the row under the call's own key. */
  lemma ReadFindsItsRow(s: State, c: nat)
    requires c in s.calls && s.calls[c].stage.Reading? && CallOk(s.table, s.calls[c]) && UniqueIds(s.table)
    ensures RowById(s.table, s.calls[c].stage.id) == Some(s.table[KeyOf(s.calls[c].params)])
  {
  }

  lemma WaitingMoves(calls: map<nat, Call>, c: nat, call: Call, id: nat)
    ensures
      var was := c in calls && calls[c].stage == Publishing(id);
      var now := call.stage == Publishing(id);
      |Waiting(calls[c := call], id)| == |Waiting(calls, id)| - (if was then 1 else 0) + (if now then 1 else 0)
  {
    var rest := Waiting(calls, id) - {c};
    assert Waiting(calls[c := call], id) == if call.stage == Publishing(id) then rest + {c} else rest;
    assert Waiting(calls, id) == if c in calls && calls[c].stage == Publishing(id) then rest + {c} else rest;
  }

  lemma StepKeepsCounts(s: State, a: Action)
    requires Enabled(s, a) && Inv(s)
    ensures Counted(Next(s, a))
  {
    var s' := Next(s, a);
    forall id: nat ensures CountedOk(s', id) && (!HasId(s'.table, id) ==> s'.coincidences[id] == 0) {
      assert CountedOk(s, id);
      StepKeepsIds(s, a, id);
      if !a.Touch? { WaitingMoves(s.calls, a.call, s'.calls[a.call], id); }
      hide HasId, Waiting, UniqueIds, CallsOk;
    }
  }

  lemma StepKeepsIds(s: State, a: Action, id: nat)
    requires Enabled(s, a)
    ensures
      HasId(Next(s, a).table, id) <==>
      HasId(s.table, id) || (a.Upsert? && KeyOf(s.calls[a.call].params) !in s.table && a.newId == id)
    ensures a.Upsert? && KeyOf(s.calls[a.call].params) in s.table ==>
        HasId(s.table, s.table[KeyOf(s.calls[a.call].params)].id)
    ensures a.Upsert? && KeyOf(s.calls[a.call].params) !in s.table ==> !HasId(s.table, a.newId)
  {
    StepKeepsEveryRow(s, a);
    var t, t' := s.table, Next(s, a).table;
    if HasId(t, id) {
      var k :| k in t && t[k].id == id;
      assert t'[k].id == id;
    }
    if HasId(t', id) {
      var k :| k in t' && t'[k].id == id;
      if k in t { assert t[k].id == id; }
    }
  }

  lemma StepKeepsEveryRow(s: State, a: Action)
    requires Enabled(s, a)
    ensures RowsKept(s.table, Next(s, a).table)
    ensures forall k :: k in Next(s, a).table && k !in s.table ==>
      a.Upsert? && k == KeyOf(s.calls[a.call].params) && Next(s, a).table[k].id == a.newId
    ensures a.Upsert? ==> KeyOf(s.calls[a.call].params) in Next(s, a).table
    ensures a.Upsert? && KeyOf(s.calls[a.call].params) !in s.table ==>
      Next(s, a).table[KeyOf(s.calls[a.call].params)].id == a.newId
  {
  }

  // ---- Every run ----

  lemma {:induction false} InvInRuns(states: seq<State>, actions: seq<Action>, i: nat)
    requires IsRun(states, actions) && i < |states|
    ensures Inv(states[i])
  {
    if i > 0 {
      var s, a := states[i - 1], actions[i - 1];
      InvInRuns(states, actions, i - 1);
      assert Enabled(s, a) && states[i] == Next(s, a);
      StepKeepsRows(s, a);
      StepKeepsCalls(s, a);
      StepKeepsCounts(s, a);
    } else {
      hide IsRun;
      forall id: nat ensures |Waiting(states[0].calls, id)| == 0 && !HasId(states[0].table, id) {
        assert Waiting(states[0].calls, id) == {};
      }
    }
  }

  lemma {:induction false} RowsKeptInRuns(states: seq<State>, actions: seq<Action>, i: nat, j: nat)
    requires IsRun(states, actions) && i <= j < |states|
    ensures RowsKept(states[i].table, states[j].table)
    decreases j - i
  {
    if i < j {
      RowsKeptInRuns(states, actions, i, j - 1);
      InvInRuns(states, actions, j - 1);
      StepKeepsRows(states[j - 1], actions[j - 1]);
    }
  }

  /**
    All calls with the same caller and key that are ever answered get the same id, event type and payload;
    calls that differ in one of the two get different ids.
   */
  lemma SameKeySameAnswer(states: seq<State>, actions: seq<Action>, i: nat, j: nat, c: nat, d: nat)
    requires IsRun(states, actions) && i <= j < |states|
    requires c in states[i].calls && states[i].calls[c].stage.Answered?
    requires d in states[j].calls && states[j].calls[d].stage.Answered?
    ensures
      var (p, q) := (states[i].calls[c].params, states[j].calls[d].params);
      var (v, w) := (states[i].calls[c].stage.view, states[j].calls[d].stage.view);
      if p.caller == q.caller && p.key == q.key then v == w else v.id != w.id
  {
    InvInRuns(states, actions, i);
    InvInRuns(states, actions, j);
    RowsKeptInRuns(states, actions, i, j);
    hide IsRun;
    assert CallOk(states[i].table, states[i].calls[c]) && CallOk(states[j].table, states[j].calls[d]);
  }

  /**
    The first submission under a key decides event type and payload for good, whatever later ones say,
    and every call with that caller and key is answered with them.
   */
  lemma FirstSubmissionWins(states: seq<State>, actions: seq<Action>, i: nat, j: nat)
    requires IsRun(states, actions) && i < j < |states| && actions[i].Upsert?
    requires KeyOf(states[i].calls[actions[i].call].params) !in states[i].table
    ensures
      var params := states[i].calls[actions[i].call].params;
      && KeyOf(params) in states[j].table
      && ViewOf(states[j].table[KeyOf(params)]) == View(actions[i].newId, params.eventType, params.payload)
    ensures
      var params := states[i].calls[actions[i].call].params;
      forall c | c in states[j].calls && states[j].calls[c].stage.Answered? ::
        var call := states[j].calls[c];
        call.params.caller == params.caller && call.params.key == params.key ==>
          call.stage.view == View(actions[i].newId, params.eventType, params.payload)
  {
    assert Enabled(states[i], actions[i]) && states[i + 1] == Next(states[i], actions[i]);
    RowsKeptInRuns(states, actions, i + 1, j);
    InvInRuns(states, actions, j);
    hide IsRun, UniqueIds, Counted;
  }

  /** Every upsert happens later than the one before. */
  ghost predicate StrictClock(states: seq<State>, actions: seq<Action>)
    requires |states| == |actions| + 1
  {
    forall i :: 0 <= i < |actions| && actions[i].Upsert? ==> actions[i].now > states[i].clock
  }

  lemma {:induction false} NoCoincidences(states: seq<State>, actions: seq<Action>, i: nat)
    requires IsRun(states, actions) && StrictClock(states, actions) && i < |states|
    ensures forall k :: k in states[i].table ==> states[i].table[k].createdAt <= states[i].clock
    ensures states[i].coincidences == multiset{}
  {
    if i > 0 {
      NoCoincidences(states, actions, i - 1);
      assert Enabled(states[i - 1], actions[i - 1]) && states[i] == Next(states[i - 1], actions[i - 1]);
    }
  }

  /**
    With a strictly advancing clock at most one trigger is published for a notification, however often it is
    submitted.
   */
  lemma AtMostOneTrigger(states: seq<State>, actions: seq<Action>, i: nat, id: nat)
    requires IsRun(states, actions) && StrictClock(states, actions) && i < |states|
    ensures states[i].published[id] <= 1
    ensures HasId(states[i].table, id) && Waiting(states[i].calls, id) == {} && states[i].dropped[id] == 0 ==>
      states[i].published[id] == 1
  {
    InvInRuns(states, actions, i);
    NoCoincidences(states, actions, i);
    hide IsRun, StrictClock;
    assert CountedOk(states[i], id);
  }

  /**
    In general a notification is announced, or its announcement lost or still due, once plus once
    for every resubmission at the very instant of its creation.
   */
  lemma TriggersAreCounted(states: seq<State>, actions: seq<Action>, i: nat, id: nat)
    requires IsRun(states, actions) && i < |states| && HasId(states[i].table, id)
    ensures states[i].published[id] + states[i].dropped[id] + |Waiting(states[i].calls, id)| ==
        1 + states[i].coincidences[id]
  {
    InvInRuns(states, actions, i);
    hide IsRun;
    assert CountedOk(states[i], id);
  }

  lemma {:induction false} DroppedStays(states: seq<State>, actions: seq<Action>, i: nat, j: nat, id: nat)
    requires IsRun(states, actions) && i <= j < |states|
    ensures states[i].dropped[id] <= states[j].dropped[id]
    ensures HasId(states[i].table, id) ==> HasId(states[j].table, id)
    decreases j - i
  {
    if i < j {
      DroppedStays(states, actions, i, j - 1, id);
      assert Enabled(states[j - 1], actions[j - 1]) && states[j] == Next(states[j - 1], actions[j - 1]);
      hide IsRun, HasId;
      StepKeepsIds(states[j - 1], actions[j - 1], id);
    }
  }

  /**
    With a strictly advancing clock, once nobody is about to announce a stored notification any more:
    no trigger is published for it from then on, whoever submits it again, exactly when its one publish
    failed.
   */
  lemma NeverAnnouncedIff(states: seq<State>, actions: seq<Action>, i: nat, id: nat)
    requires IsRun(states, actions) && StrictClock(states, actions) && i < |states|
    requires HasId(states[i].table, id) && Waiting(states[i].calls, id) == {}
    ensures states[i].dropped[id] == 1 <==> forall j :: i <= j < |states| ==> states[j].published[id] == 0
  {
    forall j | i <= j < |states|
      ensures states[j].published[id] + states[j].dropped[id] + |Waiting(states[j].calls, id)| == 1
      ensures states[i].dropped[id] <= states[j].dropped[id]
    {
      DroppedStays(states, actions, i, j, id);
      TriggersAreCounted(states, actions, j, id);
      NoCoincidences(states, actions, j);
    }
    hide IsRun, StrictClock, Waiting, HasId;
  }

  /** And that does happen: two submissions at one instant publish two triggers. */
  lemma SameInstantPublishesTwice(params: Params, now: int, id: nat) returns (states: seq<State>, actions: seq<Action>)
    ensures IsRun(states, actions)
    ensures states[|states| - 1].published[id] == 2
  {
    var s := State(map[], multiset{}, multiset{}, map[], now, multiset{});
    states, actions := [s], [];
    states, actions := Extend(states, actions, Begin(0, params));
    states, actions := Extend(states, actions, Begin(1, params));
    states, actions := Extend(states, actions, Upsert(0, now, id));
    states, actions := Extend(states, actions, Upsert(1, now, id));
    states, actions := Extend(states, actions, Publish(0, true));
    states, actions := Extend(states, actions, Publish(1, true));
  }

  lemma Extend(states: seq<State>, actions: seq<Action>, a: Action) returns (states': seq<State>, actions': seq<Action>)
    requires IsRun(states, actions) && Enabled(states[|states| - 1], a)
    ensures states' == states + [Next(states[|states| - 1], a)] && actions' == actions + [a]
    ensures IsRun(states', actions')
  {
    states', actions' := states + [Next(states[|states| - 1], a)], actions + [a];
  }
}
