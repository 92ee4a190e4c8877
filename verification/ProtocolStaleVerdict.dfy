/**
  A run without failing calls that comes to rest with a status that is not the aggregate: a verdict
  counted before a redelivered task changed its outcome is written last.
 */
module ProtocolStaleVerdict {
  import opened Protocol
  import opened ProtocolInvariants
  import opened ProtocolLimits
  import opened ProtocolTheorems

  const FIRST: Task := Task(0, "v", "e", TaskPending, 0)
  const SECOND: Task := Task(0, "w", "e", TaskPending, 0)

  /** Two vendors without retries. */
  function TwoVendors(): Config {
    Config(map["e" := ["v", "w"]], map[("v", "e") := 1, ("w", "e") := 1])
  }

  /** The notification and its two tasks, as two workers change them. */
  function Pair(status: NotificationStatus, first: TaskStatus, second: TaskStatus, queue: multiset<nat>,
                one: Worker, two: Worker, history: History): State {
    State(map[0 := Notification("e", status)],
          map[0 := FIRST.(status := first), 1 := SECOND.(status := second)], {0}, queue, multiset{},
          map[0 := Waiting], map[0 := one, 1 := two], history)
  }

  function Told(accepted: set<nat>, calls: multiset<nat>, redelivered: set<nat>): History {
    History({0, 1}, accepted, calls, map[], false, redelivered)
  }

  // ---- One call after the other, in any state.

  function Moved(s: State, w: nat, pc: Worker): State { s.(workers := s.workers[w := pc]) }

  lemma Fetched(cfg: Config, r: Run, w: nat, t: nat) returns (r': Run)
    requires IsRun(cfg, r) && r.states != []
    requires var s := Last(r);
             && w in s.workers && s.workers[w].Idle? && t in s.deliveryQueue && t in s.tasks
             && s.tasks[t].notification in s.notifications
             && (s.tasks[t].vendor, s.tasks[t].eventType) in cfg.maxAttempts
             && cfg.maxAttempts[(s.tasks[t].vendor, s.tasks[t].eventType)] == 1
    ensures IsRun(cfg, r') && r'.states != []
    ensures var s := Last(r);
            Last(r') == Moved(s, w, Busy(t, CallVendor(s.tasks[t], 1))).(deliveryQueue := s.deliveryQueue - multiset{t})
  {
    hide IsRun;
    r' := Then(cfg, r, Take(w, t));
    r' := Then(cfg, r', Work(w, true, true, NetworkError));
    r' := Then(cfg, r', Work(w, true, true, NetworkError));
  }

  lemma Answered(cfg: Config, r: Run, w: nat, t: nat, row: Task, ok: bool) returns (r': Run)
    requires IsRun(cfg, r) && r.states != []
    requires w in Last(r).workers && Last(r).workers[w] == Busy(t, CallVendor(row, 1))
    ensures IsRun(cfg, r') && r'.states != []
    ensures var s := Last(r);
            Last(r') == Moved(s, w, Busy(t, if ok then MarkSucceeded(row) else MarkDeadLetter(row))).(history :=
              s.history.(calls := s.history.calls + multiset{t},
                         accepted := if ok then s.history.accepted + {t} else s.history.accepted))
  {
    hide IsRun;
    var outcome := Response(if ok then 200 else 400);
    assert IsSuccess(outcome) <==> ok;
    assert AfterResponse(row, 1, outcome) == if ok then MarkSucceeded(row) else MarkDeadLetter(row);
    hide IsSuccess, AfterResponse;
    r' := Then(cfg, r, Work(w, true, true, outcome));
  }

  lemma Marked(cfg: Config, r: Run, w: nat, t: nat, row: Task, ok: bool) returns (r': Run)
    requires IsRun(cfg, r) && r.states != []
    requires w in Last(r).workers
    requires Last(r).workers[w] == Busy(t, if ok then MarkSucceeded(row) else MarkDeadLetter(row))
    ensures IsRun(cfg, r') && r'.states != []
    ensures var s := Last(r);
            Last(r') == Moved(s, w, Busy(t, if ok then CountTasks(row) else InsertDeadLetter(row))).(
              tasks := SetTaskStatus(s.tasks, t, if ok then TaskSucceeded else TaskDeadLetter))
  {
    hide IsRun;
    r' := Then(cfg, r, Work(w, true, true, NetworkError));
  }

  /** From the queue to the terminal write of the task row. */
  lemma Tried(cfg: Config, r: Run, w: nat, t: nat, ok: bool) returns (r': Run)
    requires IsRun(cfg, r) && r.states != []
    requires var s := Last(r);
             && w in s.workers && s.workers[w].Idle? && t in s.deliveryQueue && t in s.tasks
             && s.tasks[t].notification in s.notifications
             && (s.tasks[t].vendor, s.tasks[t].eventType) in cfg.maxAttempts
             && cfg.maxAttempts[(s.tasks[t].vendor, s.tasks[t].eventType)] == 1
    ensures IsRun(cfg, r') && r'.states != []
    ensures var s, row := Last(r), Last(r).tasks[t];
            Last(r') == Moved(s, w, Busy(t, if ok then CountTasks(row) else InsertDeadLetter(row))).(
              deliveryQueue := s.deliveryQueue - multiset{t},
              tasks := s.tasks[t := row.(status := if ok then TaskSucceeded else TaskDeadLetter)],
              history := s.history.(calls := s.history.calls + multiset{t},
                                    accepted := if ok then s.history.accepted + {t} else s.history.accepted))
  {
    hide IsRun, Next, Enabled;
    var row := Last(r).tasks[t];
    r' := Fetched(cfg, r, w, t);
    r' := Answered(cfg, r', w, t, row, ok);
    r' := Marked(cfg, r', w, t, row, ok);
  }

  lemma Buried(cfg: Config, r: Run, w: nat, t: nat, row: Task) returns (r': Run)
    requires IsRun(cfg, r) && r.states != []
    requires w in Last(r).workers && Last(r).workers[w] == Busy(t, InsertDeadLetter(row))
    ensures IsRun(cfg, r') && r'.states != []
    ensures var s := Last(r);
            Last(r') == Moved(s, w, Busy(t, CountTasks(row))).(tasks := SetTaskStatus(s.tasks, t, TaskDeadLetter))
  {
    hide IsRun;
    r' := Then(cfg, r, Work(w, true, true, NetworkError));
  }

  lemma Counted(cfg: Config, r: Run, w: nat, t: nat, row: Task) returns (r': Run)
    requires IsRun(cfg, r) && r.states != []
    requires w in Last(r).workers && Last(r).workers[w] == Busy(t, CountTasks(row))
    ensures IsRun(cfg, r') && r'.states != []
    ensures var s, verdict := Last(r), CountVerdict(Last(r).tasks, row.notification);
            Last(r') == Moved(s, w, Busy(t, if verdict == Delivering then Ack else WriteStatus(row, verdict)))
  {
    hide IsRun, CountVerdict;
    r' := Then(cfg, r, Work(w, true, true, NetworkError));
  }

  lemma Written(cfg: Config, r: Run, w: nat, t: nat, row: Task, verdict: NotificationStatus) returns (r': Run)
    requires IsRun(cfg, r) && r.states != []
    requires w in Last(r).workers && Last(r).workers[w] == Busy(t, WriteStatus(row, verdict))
    ensures IsRun(cfg, r') && r'.states != []
    ensures var s := Last(r);
            Last(r') == Moved(s, w, Idle).(
              notifications := SetNotificationStatus(s.notifications, row.notification, verdict))
  {
    hide IsRun;
    r' := Then(cfg, r, Work(w, true, true, NetworkError));
    r' := Then(cfg, r', Work(w, true, true, NetworkError));
  }

  lemma Crashed(cfg: Config, r: Run, w: nat, t: nat, stage: WorkerStage) returns (r': Run)
    requires IsRun(cfg, r) && r.states != [] && w in Last(r).workers && Last(r).workers[w] == Busy(t, stage)
    ensures IsRun(cfg, r') && r'.states != []
    ensures var s := Last(r);
            Last(r') == Moved(s, w, Idle).(
              deliveryQueue := s.deliveryQueue + multiset{t},
              history := s.history.(redelivered := s.history.redelivered + {t}))
  {
    hide IsRun;
    r' := Then(cfg, r, WorkerCrash(w));
  }

  // ---- The run.

  lemma DispatchedTwo() returns (r: Run)
    ensures IsRun(TwoVendors(), r) && r.states != []
    ensures Last(r) == Pair(Delivering, TaskPending, TaskPending, multiset{0, 1}, Idle, Idle, Told({}, multiset{}, {}))
  {
    hide IsRun;
    r := CreatedTwo();
    r := Then(TwoVendors(), r, Dispatch(0, true, 0));
    r := Then(TwoVendors(), r, Dispatch(0, true, 0));
    r := Then(TwoVendors(), r, Dispatch(0, true, 0));
  }

  function Fresh2(): State {
    State(map[0 := Notification("e", Pending)], map[], {0}, multiset{}, multiset{},
          map[0 := Dispatching(0, Load)], map[0 := Idle, 1 := Idle], History({}, {}, multiset{}, map[], false, {}))
  }

  lemma AnnouncedTwo() returns (r: Run)
    ensures IsRun(TwoVendors(), r) && r.states != [] && Last(r) == Fresh2()
  {
    r := Run([Fresh2().(notifications := map[], triggers := {}, dispatchers := map[0 := Waiting])], []);
    assert IsRun(TwoVendors(), r);
    hide IsRun;
    r := Then(TwoVendors(), r, Arrive(0, "e"));
    r := Then(TwoVendors(), r, PublishTrigger(0));
    r := Then(TwoVendors(), r, Receive(0, 0));
  }

  lemma CreatedTwo() returns (r: Run)
    ensures IsRun(TwoVendors(), r) && r.states != []
    ensures Last(r) == Fresh2().(tasks := map[0 := FIRST, 1 := SECOND],
                                 dispatchers := map[0 := Dispatching(0, MarkDelivering([0, 1]))])
  {
    hide IsRun;
    r := InsertedOne();
    assert "v"[0] != "w"[0];
    assert [0] + [1] == [0, 1];
    r := Then(TwoVendors(), r, Dispatch(0, true, 1));
  }

  lemma InsertedOne() returns (r: Run)
    ensures IsRun(TwoVendors(), r) && r.states != []
    ensures Last(r) == Fresh2().(tasks := map[0 := FIRST], dispatchers := map[0 := Dispatching(0, InsertTask([0]))])
  {
    hide IsRun;
    r := AnnouncedTwo();
    r := Then(TwoVendors(), r, Dispatch(0, true, 0));
    r := Then(TwoVendors(), r, Dispatch(0, true, 0));
    var created: seq<nat> := [];
    assert created + [0] == [0];
    r := Then(TwoVendors(), r, Dispatch(0, true, 0));
  }

  /** The first task is given up, and its worker crashes before counting: the message comes back. */
  lemma FirstGivenUp() returns (r: Run)
    ensures IsRun(TwoVendors(), r) && r.states != []
    ensures Last(r) == Pair(Delivering, TaskDeadLetter, TaskPending, multiset{0, 1}, Idle, Idle,
                            Told({}, multiset{0}, {0}))
  {
    hide IsRun, Next, Enabled;
    r := DispatchedTwo();
    r := Tried(TwoVendors(), r, 0, 0, false);
    r := Crashed(TwoVendors(), r, 0, 0, InsertDeadLetter(FIRST));
    assert multiset{0, 1} - multiset{0} + multiset{0} == multiset{0, 1};
  }

  lemma SecondTried() returns (r: Run)
    ensures IsRun(TwoVendors(), r) && r.states != []
    ensures Last(r) == Pair(Delivering, TaskDeadLetter, TaskDeadLetter, multiset{0}, Idle,
                            Busy(1, InsertDeadLetter(SECOND)), Told({}, multiset{0, 1}, {0}))
  {
    hide IsRun, Next, Enabled;
    r := FirstGivenUp();
    r := Tried(TwoVendors(), r, 1, 1, false);
    assert multiset{0, 1} - multiset{1} == multiset{0};
    assert multiset{0} + multiset{1} == multiset{0, 1};
  }

  /** The second is given up as well; its worker counts, and pauses before it writes FAILED. */
  lemma SecondGivenUp() returns (r: Run)
    ensures IsRun(TwoVendors(), r) && r.states != []
    ensures Last(r) == Pair(Delivering, TaskDeadLetter, TaskDeadLetter, multiset{0}, Idle,
                            Busy(1, WriteStatus(SECOND, Failed)), Told({}, multiset{0, 1}, {0}))
  {
    hide IsRun, Next, Enabled;
    r := SecondTried();
    r := Buried(TwoVendors(), r, 1, 1, SECOND);
    PairCounts(Last(r).tasks, TaskDeadLetter);
    hide CountVerdict;
    r := Counted(TwoVendors(), r, 1, 1, SECOND);
  }

  lemma PairCounts(tasks: map<nat, Task>, first: TaskStatus)
    requires Terminal(first)
    requires tasks == map[0 := FIRST.(status := first), 1 := SECOND.(status := TaskDeadLetter)]
    ensures CountVerdict(tasks, 0) == if first == TaskSucceeded then PartiallyFailed else Failed
  {
    assert TasksOf(tasks, 0) == {0, 1};
    assert TasksWith(tasks, 0, TaskSucceeded) == if first == TaskSucceeded then {0} else {};
    assert TasksWith(tasks, 0, TaskDeadLetter) == if first == TaskSucceeded then {1} else {0, 1};
  }

  /** The first task is delivered after all and resolved; then the older verdict overwrites the newer one. */
  lemma StaleVerdictWins() returns (cfg: Config, r: Run)
    ensures IsRun(cfg, r) && r.states != [] && Quiescent(Last(r)) && !Last(r).history.faulted
    ensures 0 in Last(r).notifications && Last(r).notifications[0].status == Failed
    ensures AllTerminal(Last(r).tasks, 0) && Aggregate(Last(r).tasks, 0) == PartiallyFailed
  {
    hide IsRun, Next, Enabled;
    cfg := TwoVendors();
    r := SecondGivenUp();
    r := Redelivered(r);
    r := Written(cfg, r, 1, 1, SECOND, Failed);
    EndsStale(Last(r));
    hide Quiescent, AllTerminal, Aggregate;
  }

  lemma Redelivered(r: Run) returns (r': Run)
    requires IsRun(TwoVendors(), r) && r.states != []
    requires Last(r) == Pair(Delivering, TaskDeadLetter, TaskDeadLetter, multiset{0}, Idle,
                             Busy(1, WriteStatus(SECOND, Failed)), Told({}, multiset{0, 1}, {0}))
    ensures IsRun(TwoVendors(), r') && r'.states != []
    ensures Last(r') == Pair(PartiallyFailed, TaskSucceeded, TaskDeadLetter, multiset{}, Idle,
                             Busy(1, WriteStatus(SECOND, Failed)), Told({0}, multiset{0, 1} + multiset{0}, {0}))
  {
    hide IsRun, Next, Enabled;
    var row := FIRST.(status := TaskDeadLetter);
    r' := Tried(TwoVendors(), r, 0, 0, true);
    PairCounts(Last(r').tasks, TaskSucceeded);
    hide CountVerdict;
    r' := Counted(TwoVendors(), r', 0, 0, row);
    r' := Written(TwoVendors(), r', 0, 0, row, PartiallyFailed);
  }

  lemma EndsStale(s: State)
    requires s == Pair(Failed, TaskSucceeded, TaskDeadLetter, multiset{}, Idle, Idle,
                       Told({0}, multiset{0, 1} + multiset{0}, {0}))
    ensures Quiescent(s) && AllTerminal(s.tasks, 0) && Aggregate(s.tasks, 0) == PartiallyFailed
  {
    assert s.tasks[0].status == TaskSucceeded && s.tasks[0].notification == 0;
    assert s.tasks[1].status == TaskDeadLetter && s.tasks[1].notification == 0;
  }
}
