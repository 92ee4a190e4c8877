/**
  Runs that show each exception of the theorems to happen: each of three failing calls can strand a
  notification, a failing or duplicate insert can abandon one, and a crash can turn a final status
  into another.
 */
module ProtocolLimits {
  import opened Protocol
  import opened ProtocolInvariants
  import opened ProtocolStranding
  import opened ProtocolAbandoning
  import opened ProtocolSticking
  import opened ProtocolSending
  import opened ProtocolTheorems

  const ROW: Task := Task(0, "v", "e", TaskPending, 0)

  /** One vendor for one event type; `max` is its retry limit. */
  function Setup(max: int): Config {
    Config(map["e" := ["v"]], map[("v", "e") := max])
  }

  function Start(): State {
    State(map[], map[], {}, multiset{}, multiset{}, map[0 := Waiting], map[0 := Idle],
          History({}, {}, multiset{}, map[], false, {}))
  }

  /** The one notification is dispatched and its one task is published. */
  function Dispatched(): State {
    State(map[0 := Notification("e", Delivering)], map[0 := ROW], {0}, multiset{0}, multiset{},
          map[0 := Waiting], map[0 := Idle], History({0}, {}, multiset{}, map[], false, {}))
  }

  function Last(r: Run): State
    requires r.states != []
  {
    r.states[|r.states| - 1]
  }

  lemma Then(cfg: Config, r: Run, a: Action) returns (r': Run)
    requires IsRun(cfg, r) && r.states != [] && Enabled(cfg, Last(r), a)
    ensures IsRun(cfg, r') && r'.states != [] && Last(r') == Next(cfg, Last(r), a)
    ensures r.states <= r'.states
  {
    hide Enabled, Next, Init;
    r' := Run(r.states + [Next(cfg, Last(r), a)], r.actions + [a]);
  }

  lemma Begin(cfg: Config) returns (r: Run)
    ensures IsRun(cfg, r) && r.states == [Start()]
  {
    r := Run([Start()], []);
  }

  lemma Announce(cfg: Config) returns (r: Run)
    ensures IsRun(cfg, r) && r.states != []
    ensures Last(r) == Start().(
      notifications := map[0 := Notification("e", Pending)], triggers := {0},
      dispatchers := map[0 := Dispatching(0, Load)])
  {
    hide IsRun;
    r := Begin(cfg);
    r := Then(cfg, r, Arrive(0, "e"));
    r := Then(cfg, r, PublishTrigger(0));
    r := Then(cfg, r, Receive(0, 0));
  }

  /** The task is created and the notification marked; its publish is next. */
  lemma MarkDispatched(cfg: Config) returns (r: Run)
    requires cfg.routes == map["e" := ["v"]]
    ensures IsRun(cfg, r) && r.states != []
    ensures Last(r) == Dispatched().(
      deliveryQueue := multiset{}, dispatchers := map[0 := Dispatching(0, PublishTasks([0]))],
      history := History({}, {}, multiset{}, map[], false, {}))
  {
    hide IsRun;
    r := Announce(cfg);
    r := Then(cfg, r, Dispatch(0, true, 0));
    r := Then(cfg, r, Dispatch(0, true, 0));
    r := Then(cfg, r, Dispatch(0, true, 0));
    var created: seq<nat> := [];
    assert created + [0] == [0];
    r := Then(cfg, r, Dispatch(0, true, 0));
  }

  lemma RunDispatcher(cfg: Config) returns (r: Run)
    requires cfg.routes == map["e" := ["v"]]
    ensures IsRun(cfg, r) && r.states != [] && Last(r) == Dispatched()
  {
    hide IsRun;
    r := MarkDispatched(cfg);
    r := Then(cfg, r, Dispatch(0, true, 0));
  }

  /** The one task after dispatch, as the steps of its worker change it. */
  function Working(status: NotificationStatus, row: Task, queued: bool, worker: Worker,
                   calls: multiset<nat>, accepted: set<nat>, redelivered: set<nat>): State {
    State(map[0 := Notification("e", status)], map[0 := row], {0},
          if queued then multiset{0} else multiset{}, multiset{},
          map[0 := Waiting], map[0 := worker], History({0}, accepted, calls, map[], false, redelivered))
  }

  lemma Fetch(cfg: Config, r: Run, status: NotificationStatus, row: Task, calls: multiset<nat>,
      redelivered: set<nat>) returns (r': Run)
    requires cfg == Setup(1) && IsRun(cfg, r) && r.states != [] && row.(status := TaskPending) == ROW
    requires Last(r) == Working(status, row, true, Idle, calls, {}, redelivered)
    ensures IsRun(cfg, r') && r'.states != [] && r.states <= r'.states
    ensures Last(r') == Working(status, row, false, Busy(0, CallVendor(row, 1)), calls, {}, redelivered)
  {
    hide IsRun;
    r' := Then(cfg, r, Take(0, 0));
    r' := Then(cfg, r', Work(0, true, true, NetworkError));
    r' := Then(cfg, r', Work(0, true, true, NetworkError));
  }

  /** The vendor answers, and the task row is written accordingly. */
  lemma Call(cfg: Config, r: Run, status: NotificationStatus, row: Task, calls: multiset<nat>, redelivered: set<nat>,
      ok: bool)
    returns (r': Run)
    requires cfg == Setup(1) && IsRun(cfg, r) && r.states != [] && row.(status := TaskPending) == ROW
    requires Last(r) == Working(status, row, true, Idle, calls, {}, redelivered)
    ensures IsRun(cfg, r') && r'.states != [] && r.states <= r'.states
    ensures Last(r') == Working(status, row.(status := if ok then TaskSucceeded else TaskDeadLetter), false,
                                Busy(0, if ok then CountTasks(row) else InsertDeadLetter(row)),
                                calls + multiset{0}, if ok then {0} else {}, redelivered)
  {
    hide IsRun, Next, Enabled;
    r' := Fetch(cfg, r, status, row, calls, redelivered);
    r' := Answer(cfg, r', status, row, calls, redelivered, ok);
    r' := Mark(cfg, r', status, row, calls + multiset{0}, redelivered, ok);
  }

  lemma Answer(cfg: Config, r: Run, status: NotificationStatus, row: Task, calls: multiset<nat>, redelivered: set<nat>,
      ok: bool)
    returns (r': Run)
    requires cfg == Setup(1) && IsRun(cfg, r) && r.states != []
    requires Last(r) == Working(status, row, false, Busy(0, CallVendor(row, 1)), calls, {}, redelivered)
    ensures IsRun(cfg, r') && r'.states != [] && r.states <= r'.states
    ensures Last(r') == Working(status, row, false, Busy(0, if ok then MarkSucceeded(row) else MarkDeadLetter(row)),
                                calls + multiset{0}, if ok then {0} else {}, redelivered)
  {
    hide IsRun;
    var outcome := Response(if ok then 200 else 400);
    assert IsSuccess(outcome) <==> ok;
    assert AfterResponse(row, 1, outcome) == if ok then MarkSucceeded(row) else MarkDeadLetter(row);
    hide IsSuccess, AfterResponse;
    r' := Then(cfg, r, Work(0, true, true, outcome));
  }

  lemma Mark(cfg: Config, r: Run, status: NotificationStatus, row: Task, calls: multiset<nat>, redelivered: set<nat>,
      ok: bool)
    returns (r': Run)
    requires cfg == Setup(1) && IsRun(cfg, r) && r.states != []
    requires Last(r) == Working(status, row, false, Busy(0, if ok then MarkSucceeded(row) else MarkDeadLetter(row)),
                                calls, if ok then {0} else {}, redelivered)
    ensures IsRun(cfg, r') && r'.states != [] && r.states <= r'.states
    ensures Last(r') == Working(status, row.(status := if ok then TaskSucceeded else TaskDeadLetter), false,
                                Busy(0, if ok then CountTasks(row) else InsertDeadLetter(row)),
                                calls, if ok then {0} else {}, redelivered)
  {
    hide IsRun;
    r' := Then(cfg, r, Work(0, true, true, NetworkError));
  }

  /** Nobody is at work, no message is live, the one task is terminal, and the notification is DELIVERING. */
  ghost predicate LeftBehind(s: State, status: TaskStatus) {
    && s.notifications == map[0 := Notification("e", Delivering)]
    && s.tasks == map[0 := ROW.(status := status)] && Terminal(status)
    && s.workers == map[0 := Idle] && s.dispatchers == map[0 := Waiting]
    && s.deliveryQueue == multiset{} && RetryMessage(0, true) !in s.retryQueue &&
        s.retryQueue <= multiset{RetryMessage(0, false)}
    && s.history.redelivered == {}
  }

  lemma LeftBehindIsStranded(s: State, status: TaskStatus)
    requires LeftBehind(s, status)
    ensures Stranded(s, 0) && Quiescent(s)
  {
  }

  /** The call at hand fails, and the worker settles its message. */
  lemma FailAndSettle(cfg: Config, r: Run, status: TaskStatus, stage: WorkerStage,
                      calls: multiset<nat>, accepted: set<nat>)
    returns (r': Run)
    requires IsRun(cfg, r) && r.states != [] && Terminal(status)
    requires stage.InsertDeadLetter? || stage.CountTasks? || stage.WriteStatus?
    requires Last(r) == Working(Delivering, ROW.(status := status), false, Busy(0, stage), calls, accepted, {})
    ensures IsRun(cfg, r') && r'.states != []
    ensures LeftBehind(Last(r'), status)
  {
    hide IsRun, LeftBehind;
    r' := Then(cfg, r, Work(0, false, true, NetworkError));
    r' := Settle(cfg, r', status, StageAfterFault(stage), calls, accepted);
  }

  lemma Settle(cfg: Config, r: Run, status: TaskStatus, stage: WorkerStage, calls: multiset<nat>, accepted: set<nat>)
    returns (r': Run)
    requires IsRun(cfg, r) && r.states != [] && Terminal(status) && (stage.Ack? || stage.Nack?)
    requires Last(r) == Working(Delivering, ROW.(status := status), false, Busy(0, stage), calls, accepted, {})
                          .(history := Last(r).history)
    requires Last(r).history.redelivered == {}
    ensures IsRun(cfg, r') && r'.states != []
    ensures LeftBehind(Last(r'), status)
  {
    hide IsRun;
    r' := Then(cfg, r, Work(0, true, true, NetworkError));
  }

  /** If only the dead-letter insert fails, the message is rejected into the retry queue without an expiration. */
  lemma FailedInsertStrands() returns (cfg: Config, r: Run)
    ensures IsRun(cfg, r) && r.states != [] && Stranded(Last(r), 0) && Quiescent(Last(r))
    ensures Last(r).history.redelivered == {}
  {
    hide IsRun, Next, Enabled, Stranded, Quiescent;
    cfg := Setup(1);
    r := RunDispatcher(cfg);
    r := Call(cfg, r, Delivering, ROW, multiset{}, {}, false);
    r := FailAndSettle(cfg, r, TaskDeadLetter, InsertDeadLetter(ROW), multiset{} + multiset{0}, {});
    LeftBehindIsStranded(Last(r), TaskDeadLetter);
  }

  /** If only the count after the last terminal write fails, the message is acknowledged. */
  lemma FailedCountStrands() returns (cfg: Config, r: Run)
    ensures IsRun(cfg, r) && r.states != [] && Stranded(Last(r), 0) && Quiescent(Last(r))
    ensures Last(r).history.redelivered == {}
  {
    hide IsRun, Next, Enabled, Stranded, Quiescent;
    cfg := Setup(1);
    r := RunDispatcher(cfg);
    r := Call(cfg, r, Delivering, ROW, multiset{}, {}, true);
    r := FailAndSettle(cfg, r, TaskSucceeded, CountTasks(ROW), multiset{} + multiset{0}, {0});
    LeftBehindIsStranded(Last(r), TaskSucceeded);
  }

  /** If only the status write fails, the message is acknowledged as well. */
  lemma FailedStatusWriteStrands() returns (cfg: Config, r: Run)
    ensures IsRun(cfg, r) && r.states != [] && Stranded(Last(r), 0) && Quiescent(Last(r))
    ensures Last(r).history.redelivered == {}
  {
    hide IsRun, Next, Enabled, Stranded, Quiescent;
    cfg := Setup(1);
    r := RunDispatcher(cfg);
    r := Call(cfg, r, Delivering, ROW, multiset{}, {}, true);
    r := Count(cfg, r, Delivering, ROW, ROW.(status := TaskSucceeded), multiset{} + multiset{0}, {0}, {});
    r := FailAndSettle(cfg, r, TaskSucceeded, WriteStatus(ROW, Succeeded), multiset{} + multiset{0}, {0});
    LeftBehindIsStranded(Last(r), TaskSucceeded);
  }

  // ---- Tasks nobody will finish.

  /** Nobody is at work, no message is live, and the notification is DELIVERING with its one task open. */
  ghost predicate LeftOpen(s: State) {
    && s.notifications == map[0 := Notification("e", Delivering)] && s.tasks == map[0 := ROW]
    && s.workers == map[0 := Idle] && s.dispatchers == map[0 := Waiting]
    && s.deliveryQueue == multiset{} && RetryMessage(0, true) !in s.retryQueue
    && s.retryQueue <= multiset{RetryMessage(0, false)} && s.history.redelivered == {}
  }

  lemma LeftOpenIsStuck(s: State)
    requires LeftOpen(s)
    ensures Quiescent(s) && Unfinished(s, 0) && !Stranded(s, 0)
    ensures if 0 in s.history.published then Stuck(s, 0) else Unsent(s, 0)
  {
    assert s.tasks[0].notification == 0 && !Terminal(s.tasks[0].status);
  }

  /**
    If only the success mark fails, the count finds an open task and the message is acknowledged: the
    vendor took the delivery, the row is open, and nobody will close it.
   */
  lemma FailedSuccessMarkLoses() returns (cfg: Config, r: Run)
    ensures IsRun(cfg, r) && r.states != [] && Quiescent(Last(r)) && Unfinished(Last(r), 0) && Stuck(Last(r), 0)
    ensures !Stranded(Last(r), 0) && Last(r).history.redelivered == {} && 0 in Last(r).history.accepted
  {
    hide IsRun;
    cfg := Setup(1);
    r := RunDispatcher(cfg);
    r := Fetch(cfg, r, Delivering, ROW, multiset{}, {});
    r := Answer(cfg, r, Delivering, ROW, multiset{}, {}, true);
    LoneOpenTaskCounts(Last(r).tasks);
    hide CountVerdict;
    r := Then(cfg, r, Work(0, false, true, NetworkError));
    r := Then(cfg, r, Work(0, true, true, NetworkError));
    r := Then(cfg, r, Work(0, true, true, NetworkError));
    LeftOpenIsStuck(Last(r));
    hide Stranded, Quiescent, Stuck;
  }

  lemma LoneOpenTaskCounts(tasks: map<nat, Task>)
    requires tasks == map[0 := ROW]
    ensures CountVerdict(tasks, 0) == Delivering
  {
    assert 0 in TasksOf(tasks, 0);
    assert TasksWith(tasks, 0, TaskSucceeded) == {} && TasksWith(tasks, 0, TaskDeadLetter) == {};
  }

  /** If only the first read fails, the message is parked in the retry queue without an expiration. */
  lemma FailedReadLoses() returns (cfg: Config, r: Run)
    ensures IsRun(cfg, r) && r.states != [] && Quiescent(Last(r)) && Unfinished(Last(r), 0) && Stuck(Last(r), 0)
    ensures !Stranded(Last(r), 0) && Last(r).history.redelivered == {}
  {
    hide IsRun;
    cfg := Setup(1);
    hide Next, Enabled, Stranded, Quiescent, Stuck;
    r := RunDispatcher(cfg);
    r := TakeFirst(cfg, r);
    r := FailRead(cfg, r);
    LeftOpenIsStuck(Last(r));
  }

  lemma TakeFirst(cfg: Config, r: Run) returns (r': Run)
    requires IsRun(cfg, r) && r.states != [] && Last(r) == Dispatched()
    ensures IsRun(cfg, r') && r'.states != []
    ensures Last(r') == Working(Delivering, ROW, false, Busy(0, GetTask), multiset{}, {}, {})
  {
    hide IsRun;
    r' := Then(cfg, r, Take(0, 0));
  }

  lemma FailRead(cfg: Config, r: Run) returns (r': Run)
    requires IsRun(cfg, r) && r.states != []
    requires Last(r) == Working(Delivering, ROW, false, Busy(0, GetTask), multiset{}, {}, {})
    ensures IsRun(cfg, r') && r'.states != [] && LeftOpen(Last(r')) && 0 in Last(r').history.published
  {
    hide IsRun;
    r' := Then(cfg, r, Work(0, false, true, NetworkError));
    r' := Then(cfg, r', Work(0, true, true, NetworkError));
  }

  /** If only the publish fails, the status guard keeps every repeated trigger from publishing the task. */
  lemma FailedPublishLeavesUnsent() returns (cfg: Config, r: Run)
    ensures IsRun(cfg, r) && r.states != [] && Quiescent(Last(r)) && Unfinished(Last(r), 0) && Unsent(Last(r), 0)
    ensures !Stranded(Last(r), 0) && Last(r).history.redelivered == {}
  {
    hide IsRun;
    cfg := Setup(1);
    r := MarkDispatched(cfg);
    r := Then(cfg, r, Dispatch(0, false, 0));
    LeftOpenIsStuck(Last(r));
    hide Stranded, Quiescent, Unsent;
  }

  // ---- Task creation given up halfway.

  /** The first vendor's task is inserted; the second vendor's insert is next. */
  lemma InsertFirst(cfg: Config, vendor: string) returns (r: Run)
    requires cfg.routes == map["e" := ["v", vendor]]
    ensures IsRun(cfg, r) && r.states != []
    ensures Last(r) == Start().(
      notifications := map[0 := Notification("e", Pending)], triggers := {0},
      tasks := map[0 := ROW], dispatchers := map[0 := Dispatching(0, InsertTask([0]))])
  {
    hide IsRun;
    r := Announce(cfg);
    r := Then(cfg, r, Dispatch(0, true, 0));
    r := Then(cfg, r, Dispatch(0, true, 0));
    assert VendorsOf(cfg, Last(r).notifications, 0) == ["v", vendor];
    assert NextVendor(cfg, Last(r).notifications, 0, []) == "v";
    r := Then(cfg, r, Dispatch(0, true, 0));
    var created: seq<nat> := [];
    assert created + [0] == [0];
  }

  /** One failing insert, and the notification is PENDING with a task, for good. */
  lemma FailedTaskInsertAbandons() returns (cfg: Config, r: Run)
    ensures IsRun(cfg, r) && r.states != [] && Abandoned(Last(r), 0) && Quiescent(Last(r))
    ensures NoDuplicates(Vendors(cfg, "e"))
  {
    hide IsRun;
    cfg := Config(map["e" := ["v", "w"]], map[]);
    r := InsertFirst(cfg, "w");
    r := Then(cfg, r, Dispatch(0, false, 1));
    PendingIsAbandoned(Last(r));
    hide Abandoned, Quiescent;
    assert "v"[0] != "w"[0];
  }

  /** Rules that name a vendor twice do the same without any failing call. */
  lemma DuplicateRuleAbandons() returns (cfg: Config, r: Run)
    ensures IsRun(cfg, r) && r.states != [] && Abandoned(Last(r), 0) && Quiescent(Last(r))
    ensures !Last(r).history.faulted
  {
    hide IsRun;
    cfg := Config(map["e" := ["v", "v"]], map[]);
    r := InsertFirst(cfg, "v");
    assert HasRow(Last(r).tasks, 0, "v") by { assert Last(r).tasks[0] == ROW; }
    r := Then(cfg, r, Dispatch(0, true, 1));
    PendingIsAbandoned(Last(r));
    hide Abandoned, Quiescent;
  }

  lemma PendingIsAbandoned(s: State)
    requires s.notifications == map[0 := Notification("e", Pending)] && s.tasks == map[0 := ROW]
    requires s.dispatchers == map[0 := Waiting] && s.workers == map[0 := Idle]
    requires s.deliveryQueue == multiset{} && s.retryQueue == multiset{}
    ensures Abandoned(s, 0) && Quiescent(s)
  {
    assert s.tasks[0].notification == 0;
  }

  // ---- A final status overturned.

  /** The count covers the one task, and its verdict is written. */
  lemma Resolve(cfg: Config, r: Run, status: NotificationStatus, row: Task, row': Task,
                calls: multiset<nat>, accepted: set<nat>, redelivered: set<nat>)
    returns (r': Run)
    requires IsRun(cfg, r) && r.states != []
    requires row.(status := TaskPending) == ROW && row'.(status := TaskPending) == ROW && Terminal(row'.status)
    requires Last(r) == Working(status, row', false, Busy(0, CountTasks(row)), calls, accepted, redelivered)
    ensures IsRun(cfg, r') && r'.states != [] && r.states <= r'.states
    ensures Last(r') == Working(if row'.status == TaskSucceeded then Succeeded else Failed, row', false,
                                Busy(0, Ack), calls, accepted, redelivered)
  {
    hide IsRun, Working, Next, Enabled;
    r' := Count(cfg, r, status, row, row', calls, accepted, redelivered);
    r' := Write(cfg, r', status, row, row', calls, accepted, redelivered);
  }

  lemma Count(cfg: Config, r: Run, status: NotificationStatus, row: Task, row': Task,
              calls: multiset<nat>, accepted: set<nat>, redelivered: set<nat>)
    returns (r': Run)
    requires IsRun(cfg, r) && r.states != []
    requires row.(status := TaskPending) == ROW && row'.(status := TaskPending) == ROW && Terminal(row'.status)
    requires Last(r) == Working(status, row', false, Busy(0, CountTasks(row)), calls, accepted, redelivered)
    ensures IsRun(cfg, r') && r'.states != [] && r.states <= r'.states
    ensures var verdict := if row'.status == TaskSucceeded then Succeeded else Failed;
            Last(r') == Working(status, row', false, Busy(0, WriteStatus(row, verdict)), calls, accepted, redelivered)
  {
    hide IsRun;
    LoneTaskCounts(map[0 := row']);
    hide CountVerdict;
    r' := Then(cfg, r, Work(0, true, true, NetworkError));
  }

  lemma Write(cfg: Config, r: Run, status: NotificationStatus, row: Task, row': Task,
              calls: multiset<nat>, accepted: set<nat>, redelivered: set<nat>)
    returns (r': Run)
    requires IsRun(cfg, r) && r.states != [] && row.(status := TaskPending) == ROW
    requires var verdict := if row'.status == TaskSucceeded then Succeeded else Failed;
             Last(r) == Working(status, row', false, Busy(0, WriteStatus(row, verdict)), calls, accepted, redelivered)
    ensures IsRun(cfg, r') && r'.states != [] && r.states <= r'.states
    ensures Last(r') == Working(if row'.status == TaskSucceeded then Succeeded else Failed, row', false,
                                Busy(0, Ack), calls, accepted, redelivered)
  {
    hide IsRun;
    r' := Then(cfg, r, Work(0, true, true, NetworkError));
  }

  lemma LoneTaskCounts(tasks: map<nat, Task>)
    requires tasks.Keys == {0} && tasks[0].notification == 0 && Terminal(tasks[0].status)
    ensures CountVerdict(tasks, 0) == if tasks[0].status == TaskSucceeded then Succeeded else Failed
  {
    assert TasksOf(tasks, 0) == {0};
    assert TasksWith(tasks, 0, TaskSucceeded) == if tasks[0].status == TaskSucceeded then {0} else {};
    assert TasksWith(tasks, 0, TaskDeadLetter) == if tasks[0].status == TaskDeadLetter then {0} else {};
  }

  /**
    A worker that crashes just before acknowledging has its message redelivered; the second vendor
    call succeeds, and the notification turns from FAILED to SUCCEEDED.
   */
  lemma RedeliveryOverturnsFinalStatus() returns (cfg: Config, r: Run, i: nat)
    ensures IsRun(cfg, r) && i < |r.states| && 0 in r.states[i].notifications
    ensures r.states[i].notifications[0].status == Failed && 0 in Last(r).notifications
    ensures Last(r).notifications[0].status == Succeeded && !Last(r).history.faulted
  {
    hide IsRun, Next, Enabled;
    cfg := Setup(1);
    r := RunDispatcher(cfg);
    var dead := ROW.(status := TaskDeadLetter);
    r := Call(cfg, r, Delivering, ROW, multiset{}, {}, false);
    r := Reject(cfg, r);
    r := Resolve(cfg, r, Delivering, ROW, dead, multiset{0}, {}, {});
    i := |r.states| - 1;
    ghost var before := r.states;
    r := Crash(cfg, r);
    r := Call(cfg, r, Failed, dead, multiset{0}, {0}, true);
    r := Resolve(cfg, r, Failed, dead, ROW.(status := TaskSucceeded), multiset{0} + multiset{0}, {0}, {0});
    assert r.states[i] == before[i];
  }

  lemma Reject(cfg: Config, r: Run) returns (r': Run)
    requires IsRun(cfg, r) && r.states != []
    requires Last(r) == Working(Delivering, ROW.(status := TaskDeadLetter), false, Busy(0, InsertDeadLetter(ROW)),
        multiset{0}, {}, {})
    ensures IsRun(cfg, r') && r'.states != []
    ensures Last(r') == Working(Delivering, ROW.(status := TaskDeadLetter), false, Busy(0, CountTasks(ROW)),
        multiset{0}, {}, {})
  {
    hide IsRun;
    r' := Then(cfg, r, Work(0, true, true, NetworkError));
  }

  lemma Crash(cfg: Config, r: Run) returns (r': Run)
    requires IsRun(cfg, r) && r.states != []
    requires Last(r) == Working(Failed, ROW.(status := TaskDeadLetter), false, Busy(0, Ack), multiset{0}, {}, {})
    ensures IsRun(cfg, r') && r'.states != [] && r.states <= r'.states
    ensures Last(r') == Working(Failed, ROW.(status := TaskDeadLetter), true, Idle, multiset{0}, {}, {0})
  {
    hide IsRun;
    r' := Then(cfg, r, WorkerCrash(0));
  }
}
