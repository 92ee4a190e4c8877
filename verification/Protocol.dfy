/**
  The delivery protocol as a transition system. One step is one database or broker call
  (or one vendor request), so that the calls of any number of dispatchers and workers
  interleave freely. `Next` says what each step does to the tables, the queues and the
  program counter that takes it.
 */
module Protocol {

  datatype NotificationStatus = Pending | Delivering | Succeeded | PartiallyFailed | Failed

  datatype TaskStatus = TaskPending | TaskSucceeded | TaskDeadLetter

  datatype Notification = Notification(eventType: string, status: NotificationStatus)

  datatype Task = Task(notification: nat, vendor: string, eventType: string,
                       status: TaskStatus, retryCount: nat)

  /** A message in the retry queue; only `PublishDelayed` gives it an expiration. */
  datatype RetryMessage = RetryMessage(task: nat, expires: bool)

  /**
    The loaded configuration. An event type without an entry in `routes` has no usable
    rules; a (vendor, event type) pair without an entry in `maxAttempts` is one for which
    `GetVendorConfig` or `GetDeliverySpec` returns an error.
   */
  datatype Config = Config(routes: map<string, seq<string>>, maxAttempts: map<(string, string), int>)

  /** What a vendor request comes back with. */
  datatype Outcome = NetworkError | Response(code: int)

  /** The call a worker makes next, with the task row it read. */
  datatype WorkerStage =
    | GetTask
    | GetPayload(row: Task)
    | CallVendor(row: Task, max: int)
    | MarkSucceeded(row: Task)
    | MarkDeadLetter(row: Task)
    | InsertDeadLetter(row: Task)
    | CountTasks(row: Task)
    | WriteStatus(row: Task, verdict: NotificationStatus)
    | UpdateRetry(row: Task)
    | PublishDelayed(row: Task)
    | Ack
    | Nack

  datatype Worker = Idle | Busy(task: nat, stage: WorkerStage)

  /** The call a dispatcher makes next, with the tasks it created or still has to publish. */
  datatype DispatchStage =
    | Load
    | MarkFailed
    | ReadEventType
    | InsertTask(created: seq<nat>)
    | MarkDelivering(created: seq<nat>)
    | PublishTasks(remaining: seq<nat>)

  datatype Dispatcher = Waiting | Dispatching(notification: nat, stage: DispatchStage)

  /** What happened so far; no step reads it. */
  datatype History = History(
    published: set<nat>,              // tasks whose PublishDelivery succeeded
    accepted: set<nat>,               // tasks a vendor answered with a 2xx
    calls: multiset<nat>,             // vendor requests, by task
    attempts: map<nat, seq<nat>>,     // attempt numbers scheduled by PublishDelayed, by task
    faulted: bool,                    // some call failed, or a dispatcher crashed
    redelivered: set<nat>)            // tasks whose message was redelivered, a worker having crashed with it

  datatype State = State(
    notifications: map<nat, Notification>,
    tasks: map<nat, Task>,
    triggers: set<nat>,               // published triggers; they are never acknowledged
    deliveryQueue: multiset<nat>,
    retryQueue: multiset<RetryMessage>,
    dispatchers: map<nat, Dispatcher>,
    workers: map<nat, Worker>,
    history: History)

  datatype Action =
    | Arrive(notification: nat, eventType: string)
    | PublishTrigger(notification: nat)
    | Receive(dispatcher: nat, notification: nat)
    | Dispatch(dispatcher: nat, ok: bool, newTask: nat)
    | DispatcherCrash(dispatcher: nat)
    | Take(worker: nat, task: nat)
    | Work(worker: nat, ok: bool, built: bool, outcome: Outcome)
    | WorkerCrash(worker: nat)
    | Expire(task: nat)

  /** `GetRoutingRules`: an error and an empty rule list have the same effect. */
  function Vendors(cfg: Config, eventType: string): seq<string> {
    if eventType in cfg.routes then cfg.routes[eventType] else []
  }

  predicate HasRow(tasks: map<nat, Task>, n: nat, vendor: string) {
    exists t :: t in tasks && tasks[t].notification == n && tasks[t].vendor == vendor
  }

  predicate Terminal(status: TaskStatus) {
    status != TaskPending
  }

  predicate Final(status: NotificationStatus) {
    status != Pending && status != Delivering
  }

  predicate IsSuccess(outcome: Outcome) {
    outcome.Response? && 200 <= outcome.code < 300
  }

  predicate IsRetryable(outcome: Outcome) {
    outcome.NetworkError? || outcome.code >= 500 || outcome.code == 429
  }

  // The counting query of `GetDeliveryTaskCounts`.

  function TasksOf(tasks: map<nat, Task>, n: nat): set<nat> {
    set t | t in tasks && tasks[t].notification == n
  }

  function TasksWith(tasks: map<nat, Task>, n: nat, status: TaskStatus): set<nat> {
    set t | t in tasks && tasks[t].notification == n && tasks[t].status == status
  }

  /** The verdict `resolveNotificationStatus` reaches from the three counts, if any. */
  function Verdict(total: nat, succeeded: nat, deadLetter: nat): NotificationStatus {
    if succeeded + deadLetter < total then Delivering
    else if deadLetter == 0 then Succeeded
    else if succeeded == 0 then Failed
    else PartiallyFailed
  }

  function CountVerdict(tasks: map<nat, Task>, n: nat): NotificationStatus {
    Verdict(|TasksOf(tasks, n)|, |TasksWith(tasks, n, TaskSucceeded)|, |TasksWith(tasks, n, TaskDeadLetter)|)
  }

  // Row updates. An UPDATE that matches no row is not an error.

  function SetNotificationStatus(ns: map<nat, Notification>, n: nat,
      status: NotificationStatus): map<nat, Notification> {
    if n in ns then ns[n := ns[n].(status := status)] else ns
  }

  function SetTaskStatus(ts: map<nat, Task>, t: nat, status: TaskStatus): map<nat, Task> {
    if t in ts then ts[t := ts[t].(status := status)] else ts
  }

  function SetRetryCount(ts: map<nat, Task>, t: nat, retryCount: nat): map<nat, Task> {
    if t in ts then ts[t := ts[t].(retryCount := retryCount)] else ts
  }

  function Fault(h: History): History {
    h.(faulted := true)
  }

  // ---- The dispatcher: `Dispatch`, with the `CreateDeliveryTasks` loop inside it.
  // A step is given column by column: what the call at hand does to the program counter
  // and to each table and queue it touches. A failing call changes nothing but the counter.

  predicate DispatchEnabled(cfg: Config, s: State, d: nat, newTask: nat) {
    && d in s.dispatchers
    && s.dispatchers[d].Dispatching?
    && (s.dispatchers[d].stage.InsertTask? ==>
          && newTask !in s.tasks
          && |s.dispatchers[d].stage.created| < |VendorsOf(cfg, s.notifications, s.dispatchers[d].notification)|)
    && (s.dispatchers[d].stage.PublishTasks? ==> s.dispatchers[d].stage.remaining != [])
  }

  function VendorsOf(cfg: Config, ns: map<nat, Notification>, n: nat): seq<string> {
    if n in ns then Vendors(cfg, ns[n].eventType) else []
  }

  /** The vendor whose row `InsertTask(created)` inserts. */
  function NextVendor(cfg: Config, ns: map<nat, Notification>, n: nat, created: seq<nat>): string
    requires |created| < |VendorsOf(cfg, ns, n)|
  {
    VendorsOf(cfg, ns, n)[|created|]
  }

  /** unique (notification_id, vendor_id): a second row for the vendor is an error. */
  predicate InsertSucceeds(cfg: Config, s: State, n: nat, created: seq<nat>)
    requires |created| < |VendorsOf(cfg, s.notifications, n)|
  {
    !HasRow(s.tasks, n, NextVendor(cfg, s.notifications, n, created))
  }

  function DispatcherAfter(cfg: Config, s: State, n: nat, stage: DispatchStage, newTask: nat): Dispatcher
    requires stage.InsertTask? ==> |stage.created| < |VendorsOf(cfg, s.notifications, n)|
    requires stage.PublishTasks? ==> stage.remaining != []
  {
    match stage
    case Load =>
      if n !in s.notifications || s.notifications[n].status != Pending then Waiting
      else if VendorsOf(cfg, s.notifications, n) == [] then Dispatching(n, MarkFailed)
      else Dispatching(n, ReadEventType)
    case MarkFailed => Waiting
    case ReadEventType => Dispatching(n, InsertTask([]))
    case InsertTask(created) =>
      if !InsertSucceeds(cfg, s, n, created) then Waiting
      else if |created| + 1 == |VendorsOf(cfg, s.notifications, n)|
          then Dispatching(n, MarkDelivering(created + [newTask]))
      else Dispatching(n, InsertTask(created + [newTask]))
    case MarkDelivering(created) => Dispatching(n, PublishTasks(created))
    case PublishTasks(remaining) =>
      if |remaining| == 1 then Waiting else Dispatching(n, PublishTasks(remaining[1..]))
  }

  function TasksAfterDispatch(cfg: Config, s: State, n: nat, stage: DispatchStage, newTask: nat): map<nat, Task>
    requires stage.InsertTask? ==> |stage.created| < |VendorsOf(cfg, s.notifications, n)|
  {
    if stage.InsertTask? && InsertSucceeds(cfg, s, n, stage.created) then
      s.tasks[newTask := Task(n, NextVendor(cfg, s.notifications, n, stage.created), s.notifications[n].eventType,
          TaskPending, 0)]
    else
      s.tasks
  }

  function NotificationsAfterDispatch(ns: map<nat, Notification>, n: nat,
      stage: DispatchStage): map<nat, Notification> {
    if stage.MarkFailed? then SetNotificationStatus(ns, n, Failed)
    else if stage.MarkDelivering? then SetNotificationStatus(ns, n, Delivering)
    else ns
  }

  function DispatchNext(cfg: Config, s: State, d: nat, newTask: nat): State
    requires DispatchEnabled(cfg, s, d, newTask)
  {
    var n, stage := s.dispatchers[d].notification, s.dispatchers[d].stage;
    s.(dispatchers := s.dispatchers[d := DispatcherAfter(cfg, s, n, stage, newTask)],
       tasks := TasksAfterDispatch(cfg, s, n, stage, newTask),
       notifications := NotificationsAfterDispatch(s.notifications, n, stage),
       deliveryQueue := if stage.PublishTasks? then s.deliveryQueue + multiset{stage.remaining[0]} else s.deliveryQueue,
       history := if stage.PublishTasks?
                  then s.history.(published := s.history.published + {stage.remaining[0]})
                  else s.history)
  }

  function DispatchFault(s: State, d: nat): State {
    s.(dispatchers := s.dispatchers[d := Waiting], history := Fault(s.history))
  }

  // ---- The worker: `ProcessMessage` and its handlers, then the ACK or NACK.

  /** `retryOrDeadLetter`, up to its first call. */
  function RetryOrDeadLetter(row: Task, max: int): WorkerStage {
    if row.retryCount + 1 >= max then MarkDeadLetter(row) else UpdateRetry(row)
  }

  function AttemptsOf(h: History, t: nat): seq<nat> {
    if t in h.attempts then h.attempts[t] else []
  }

  /** The configuration lookups and `BuildRequest`, which make no call. */
  function AfterPayload(cfg: Config, row: Task, built: bool): WorkerStage {
    if (row.vendor, row.eventType) !in cfg.maxAttempts then MarkDeadLetter(row)
    else if !built then RetryOrDeadLetter(row, cfg.maxAttempts[(row.vendor, row.eventType)])
    else CallVendor(row, cfg.maxAttempts[(row.vendor, row.eventType)])
  }

  function AfterResponse(row: Task, max: int, outcome: Outcome): WorkerStage {
    if IsSuccess(outcome) then MarkSucceeded(row)
    else if IsRetryable(outcome) then RetryOrDeadLetter(row, max)
    else MarkDeadLetter(row)
  }

  predicate WorkEnabled(s: State, w: nat) {
    w in s.workers && s.workers[w].Busy?
  }

  function WorkerAfter(cfg: Config, s: State, t: nat, stage: WorkerStage, built: bool, outcome: Outcome): Worker {
    match stage
    case GetTask => Busy(t, if t in s.tasks then GetPayload(s.tasks[t]) else Nack)
    case GetPayload(row) => Busy(t, if row.notification in s.notifications then AfterPayload(cfg, row, built) else Nack)
    case CallVendor(row, max) => Busy(t, AfterResponse(row, max, outcome))
    case MarkSucceeded(row) => Busy(t, CountTasks(row))
    case MarkDeadLetter(row) => Busy(t, InsertDeadLetter(row))
    case InsertDeadLetter(row) => Busy(t, CountTasks(row))
    case CountTasks(row) =>
      var verdict := CountVerdict(s.tasks, row.notification);
      Busy(t, if verdict == Delivering then Ack else WriteStatus(row, verdict))
    case WriteStatus(_, _) => Busy(t, Ack)
    case UpdateRetry(row) => Busy(t, PublishDelayed(row))
    case PublishDelayed(_) => Busy(t, Ack)
    case Ack => Idle
    case Nack => Idle
  }

  function TasksAfterWork(ts: map<nat, Task>, t: nat, stage: WorkerStage): map<nat, Task> {
    match stage
    case MarkSucceeded(_) => SetTaskStatus(ts, t, TaskSucceeded)
    case MarkDeadLetter(_) => SetTaskStatus(ts, t, TaskDeadLetter)
    case InsertDeadLetter(_) => SetTaskStatus(ts, t, TaskDeadLetter)
    case UpdateRetry(row) => SetRetryCount(ts, t, row.retryCount + 1)
    case _ => ts
  }

  function NotificationsAfterWork(ns: map<nat, Notification>, stage: WorkerStage): map<nat, Notification> {
    if stage.WriteStatus? then SetNotificationStatus(ns, stage.row.notification, stage.verdict) else ns
  }

  /** A negative acknowledgement dead-letters the message to the retry queue, without an expiration. */
  function RetryQueueAfterWork(q: multiset<RetryMessage>, t: nat, stage: WorkerStage): multiset<RetryMessage> {
    match stage
    case PublishDelayed(_) => q + multiset{RetryMessage(t, true)}
    case Nack => q + multiset{RetryMessage(t, false)}
    case _ => q
  }

  function HistoryAfterWork(h: History, t: nat, stage: WorkerStage, outcome: Outcome): History {
    match stage
    case CallVendor(_, _) =>
      h.(calls := h.calls + multiset{t},
         accepted := if IsSuccess(outcome) then h.accepted + {t} else h.accepted)
    case PublishDelayed(row) => h.(attempts := h.attempts[t := AttemptsOf(h, t) + [row.retryCount + 1]])
    case _ => h
  }

  function WorkNext(cfg: Config, s: State, w: nat, built: bool, outcome: Outcome): State
    requires WorkEnabled(s, w)
  {
    var t, stage := s.workers[w].task, s.workers[w].stage;
    s.(workers := s.workers[w := WorkerAfter(cfg, s, t, stage, built, outcome)],
       tasks := TasksAfterWork(s.tasks, t, stage),
       notifications := NotificationsAfterWork(s.notifications, stage),
       retryQueue := RetryQueueAfterWork(s.retryQueue, t, stage),
       history := HistoryAfterWork(s.history, t, stage, outcome))
  }

  /** Where a failing call leads: only `handleDeliverySuccess` and the resolution ignore it. */
  function StageAfterFault(stage: WorkerStage): WorkerStage {
    match stage
    case MarkSucceeded(row) => CountTasks(row)
    case CountTasks(_) => Ack
    case WriteStatus(_, _) => Ack
    case _ => Nack
  }

  function WorkFault(s: State, w: nat): State
    requires WorkEnabled(s, w)
  {
    var t, stage := s.workers[w].task, s.workers[w].stage;
    s.(workers := s.workers[w := Busy(t, StageAfterFault(stage))],
       history := Fault(s.history))
  }

  // ---- Messages.

  function TakeNext(s: State, w: nat, t: nat): State {
    s.(workers := s.workers[w := Busy(t, GetTask)], deliveryQueue := s.deliveryQueue - multiset{t})
  }

  /** A crash returns the unacknowledged message to the delivery queue. */
  function CrashNext(s: State, w: nat): State
    requires WorkEnabled(s, w)
  {
    s.(workers := s.workers[w := Idle],
       deliveryQueue := s.deliveryQueue + multiset{s.workers[w].task},
       history := s.history.(redelivered := s.history.redelivered + {s.workers[w].task}))
  }

  /** An expired message is dead-lettered from the retry queue back to the delivery queue. */
  function ExpireNext(s: State, t: nat): State {
    s.(retryQueue := s.retryQueue - multiset{RetryMessage(t, true)},
       deliveryQueue := s.deliveryQueue + multiset{t})
  }

  // ---- The system.

  predicate Enabled(cfg: Config, s: State, a: Action) {
    match a
    case Arrive(n, _) => n !in s.notifications
    case PublishTrigger(n) => n in s.notifications
    case Receive(d, n) => d in s.dispatchers && s.dispatchers[d].Waiting? && n in s.triggers
    case Dispatch(d, _, newTask) => DispatchEnabled(cfg, s, d, newTask)
    case DispatcherCrash(d) => d in s.dispatchers && s.dispatchers[d].Dispatching?
    case Take(w, t) => w in s.workers && s.workers[w].Idle? && t in s.deliveryQueue
    case Work(w, ok, _, _) =>
      // only database and broker calls fail: a vendor request ends in an outcome
      && WorkEnabled(s, w)
      && (!ok ==> !s.workers[w].stage.CallVendor? && !s.workers[w].stage.Ack? && !s.workers[w].stage.Nack?)
    case WorkerCrash(w) => WorkEnabled(s, w)
    case Expire(t) => RetryMessage(t, true) in s.retryQueue
  }

  function Next(cfg: Config, s: State, a: Action): State
    requires Enabled(cfg, s, a)
  {
    match a
    case Arrive(n, eventType) => s.(notifications := s.notifications[n := Notification(eventType, Pending)])
    case PublishTrigger(n) => s.(triggers := s.triggers + {n})
    case Receive(d, n) => s.(dispatchers := s.dispatchers[d := Dispatching(n, Load)])
    case Dispatch(d, ok, newTask) => if ok then DispatchNext(cfg, s, d, newTask) else DispatchFault(s, d)
    case DispatcherCrash(d) => DispatchFault(s, d)
    case Take(w, t) => TakeNext(s, w, t)
    case Work(w, ok, built, outcome) => if ok then WorkNext(cfg, s, w, built, outcome) else WorkFault(s, w)
    case WorkerCrash(w) => CrashNext(s, w)
    case Expire(t) => ExpireNext(s, t)
  }

  /** Before any event: a pool of idle dispatchers and workers of any size, and empty tables. */
  predicate Init(s: State) {
    && s.notifications == map[] && s.tasks == map[] && s.triggers == {}
    && s.deliveryQueue == multiset{} && s.retryQueue == multiset{}
    && (forall d :: d in s.dispatchers ==> s.dispatchers[d] == Waiting)
    && (forall w :: w in s.workers ==> s.workers[w] == Idle)
    && s.history == History({}, {}, multiset{}, map[], false, {})
  }

  /** A run: `states[i + 1]` is what `actions[i]` makes of `states[i]`. */
  datatype Run = Run(states: seq<State>, actions: seq<Action>)

  ghost predicate Follows(cfg: Config, r: Run) {
    && |r.states| == |r.actions| + 1
    && forall i :: 0 <= i < |r.actions| ==>
         Enabled(cfg, r.states[i], r.actions[i]) && r.states[i + 1] == Next(cfg, r.states[i], r.actions[i])
  }

  ghost predicate IsRun(cfg: Config, r: Run) {
    Follows(cfg, r) && Init(r.states[0])
  }
}
