/** What every step of the delivery protocol keeps. */
module ProtocolInvariants {
  import opened Protocol

  // ---------------------------------------------------------------- vocabulary

  predicate HasSnapshot(stage: WorkerStage) {
    !stage.GetTask? && !stage.Ack? && !stage.Nack?
  }

  /** The worker may still write its task or hand it on: it holds the task's token. */
  predicate Active(pc: Worker, t: nat) {
    && pc.Busy? && pc.task == t
    && !pc.stage.InsertDeadLetter? && !pc.stage.CountTasks? && !pc.stage.WriteStatus?
    && !pc.stage.Ack? && !pc.stage.Nack?
  }

  /** The worker is between a terminal write of a task of `n` and the status write of `n`. */
  predicate Resolving(pc: Worker, n: nat) {
    && pc.Busy?
    && (pc.stage.InsertDeadLetter? || pc.stage.CountTasks? || pc.stage.WriteStatus?)
    && pc.stage.row.notification == n
  }

  predicate Holds(pc: Worker, t: nat) {
    pc.Busy? && pc.task == t && !pc.stage.Ack?
  }

  predicate Queued(s: State, t: nat) {
    t in s.deliveryQueue || RetryMessage(t, true) in s.retryQueue
  }

  ghost predicate Live(s: State, t: nat) {
    Queued(s, t) || exists w :: w in s.workers && Active(s.workers[w], t)
  }

  ghost predicate AllTerminal(tasks: map<nat, Task>, n: nat) {
    forall t :: t in tasks && tasks[t].notification == n ==> Terminal(tasks[t].status)
  }

  ghost predicate Some(tasks: map<nat, Task>, n: nat, status: TaskStatus) {
    exists t :: t in tasks && tasks[t].notification == n && tasks[t].status == status
  }

  /** The notification status the task outcomes add up to. */
  ghost function Aggregate(tasks: map<nat, Task>, n: nat): NotificationStatus {
    if !AllTerminal(tasks, n) then Delivering
    else if !Some(tasks, n, TaskDeadLetter) then Succeeded
    else if !Some(tasks, n, TaskSucceeded) then Failed
    else PartiallyFailed
  }

  /** The tasks a dispatcher created and has not published. */
  function Owned(pc: Dispatcher): seq<nat> {
    if !pc.Dispatching? then []
    else match pc.stage
      case InsertTask(created) => created
      case MarkDelivering(created) => created
      case PublishTasks(remaining) => remaining
      case _ => []
  }

  // ---------------------------------------------------------------- invariants of every run

  predicate NoDuplicates<T(==)>(xs: seq<T>) {
    forall i, j :: 0 <= i < j < |xs| ==> xs[i] != xs[j]
  }

  function RetryLimit(cfg: Config, row: Task): nat {
    if (row.vendor, row.eventType) in cfg.maxAttempts && cfg.maxAttempts[(row.vendor, row.eventType)] > 1
    then cfg.maxAttempts[(row.vendor, row.eventType)] - 1 else 0
  }

  ghost predicate RowsOk(cfg: Config, s: State) {
    forall t :: t in s.tasks ==>
      && s.tasks[t].notification in s.notifications
      && s.tasks[t].eventType == s.notifications[s.tasks[t].notification].eventType
      && s.tasks[t].vendor in Vendors(cfg, s.tasks[t].eventType)
      && s.tasks[t].retryCount <= RetryLimit(cfg, s.tasks[t])
  }

  /** Rows are inserted in the order of the rules, so the first vendor has one as soon as any vendor has. */
  ghost predicate FirstRowOk(cfg: Config, s: State) {
    forall t :: t in s.tasks && Vendors(cfg, s.tasks[t].eventType) != [] ==>
      HasRow(s.tasks, s.tasks[t].notification, Vendors(cfg, s.tasks[t].eventType)[0])
  }

  ghost predicate UniqueTasks(s: State) {
    forall t, u :: (t in s.tasks && u in s.tasks && s.tasks[t].notification == s.tasks[u].notification
                    && s.tasks[t].vendor == s.tasks[u].vendor) ==> t == u
  }

  ghost predicate PublishedOk(s: State) {
    && s.triggers <= s.notifications.Keys
    && s.history.published <= s.tasks.Keys
    && (forall t :: t in s.deliveryQueue ==> t in s.history.published)
    && (forall m :: m in s.retryQueue ==> m.task in s.history.published)
    && (forall t :: t in s.history.published ==>
          s.tasks[t].notification in s.notifications && s.notifications[s.tasks[t].notification].status != Pending)
  }

  predicate SnapshotOk(cfg: Config, s: State, t: nat, stage: WorkerStage) {
    && t in s.tasks
    && (HasSnapshot(stage) ==>
          && stage.row.notification == s.tasks[t].notification
          && stage.row.vendor == s.tasks[t].vendor
          && stage.row.eventType == s.tasks[t].eventType)
    && (stage.UpdateRetry? ==> stage.row.retryCount + 1 <= RetryLimit(cfg, stage.row))
    && (stage.CallVendor? ==>
          && (stage.row.vendor, stage.row.eventType) in cfg.maxAttempts
          && stage.max == cfg.maxAttempts[(stage.row.vendor, stage.row.eventType)])
    && (stage.MarkSucceeded? ==> t in s.history.accepted)
    && (stage.CountTasks? || stage.WriteStatus? ==> Terminal(s.tasks[t].status) || t in s.history.accepted)
    && (stage.InsertDeadLetter? ==> Terminal(s.tasks[t].status))
    && (stage.WriteStatus? ==> Final(stage.verdict))
  }

  ghost predicate WorkersOk(cfg: Config, s: State) {
    forall w :: w in s.workers && s.workers[w].Busy? ==>
      && s.workers[w].task in s.history.published
      && SnapshotOk(cfg, s, s.workers[w].task, s.workers[w].stage)
  }

  predicate Fresh(s: State, n: nat, t: nat) {
    && t in s.tasks && s.tasks[t].notification == n
    && s.tasks[t].status == TaskPending && t !in s.history.published
  }

  ghost predicate CreatedOk(cfg: Config, s: State, n: nat, created: seq<nat>) {
    && n in s.notifications
    && |created| <= |VendorsOf(cfg, s.notifications, n)|
    && NoDuplicates(created)
    && (forall i :: 0 <= i < |created| ==>
          Fresh(s, n, created[i]) && s.tasks[created[i]].vendor == VendorsOf(cfg, s.notifications, n)[i])
    && (created != [] ==>
          && s.notifications[n].status == Pending
          && forall t :: t in s.tasks && s.tasks[t].notification == n ==> t in created)
  }

  ghost predicate DispatcherOk(cfg: Config, s: State, pc: Dispatcher) {
    pc.Dispatching? ==>
      var n := pc.notification;
      match pc.stage
      case Load => true
      case MarkFailed => n in s.notifications && VendorsOf(cfg, s.notifications, n) == []
      case ReadEventType => VendorsOf(cfg, s.notifications, n) != []
      case InsertTask(created) => |created| < |VendorsOf(cfg, s.notifications, n)| && CreatedOk(cfg, s, n, created)
      case MarkDelivering(created) => created != [] && |created| == |VendorsOf(cfg, s.notifications, n)| &&
          CreatedOk(cfg, s, n, created)
      case PublishTasks(remaining) =>
        && remaining != [] && NoDuplicates(remaining)
        && n in s.notifications && s.notifications[n].status != Pending && VendorsOf(cfg, s.notifications, n) != []
        && forall i :: 0 <= i < |remaining| ==> Fresh(s, n, remaining[i])
  }

  ghost predicate DispatchersOk(cfg: Config, s: State) {
    && (forall d :: d in s.dispatchers ==> DispatcherOk(cfg, s, s.dispatchers[d]))
    && (forall d, e :: d in s.dispatchers && e in s.dispatchers && d != e
               && Owned(s.dispatchers[d]) != [] && Owned(s.dispatchers[e]) != []
               ==> s.dispatchers[d].notification != s.dispatchers[e].notification)
  }

  /** Once a notification left PENDING its task set is complete and its vendors are distinct. */
  ghost predicate DispatchedOk(cfg: Config, s: State) {
    forall n :: n in s.notifications && s.notifications[n].status != Pending ==>
      && (VendorsOf(cfg, s.notifications, n) == [] ==> s.notifications[n].status == Failed)
      && NoDuplicates(VendorsOf(cfg, s.notifications, n))
      && forall i :: 0 <= i < |VendorsOf(cfg, s.notifications, n)| ==>
          HasRow(s.tasks, n, VendorsOf(cfg, s.notifications, n)[i])
  }

  /** Every published task is terminal, accepted, queued, or in a worker's hands. */
  ghost predicate NotLost(s: State) {
    forall t :: t in s.history.published ==> Found(s, t)
  }

  ghost predicate Structure(cfg: Config, s: State) {
    && RowsOk(cfg, s) && FirstRowOk(cfg, s) && UniqueTasks(s) && PublishedOk(s) && WorkersOk(cfg, s)
    && DispatchersOk(cfg, s) && DispatchedOk(cfg, s)
  }

  // ---------------------------------------------------------------- nothing moves backwards

  predicate Advances(before: NotificationStatus, after: NotificationStatus) {
    before == after || before == Pending || Final(after)
  }

  ghost predicate NotificationsGrow(s: State, s': State) {
    forall n :: n in s.notifications ==>
      && n in s'.notifications
      && s'.notifications[n].eventType == s.notifications[n].eventType
      && Advances(s.notifications[n].status, s'.notifications[n].status)
  }

  predicate SameTask(before: Task, after: Task) {
    && after.notification == before.notification && after.vendor == before.vendor
    && after.eventType == before.eventType
    && (Terminal(before.status) ==> Terminal(after.status))
  }

  ghost predicate TasksGrow(s: State, s': State) {
    forall t :: t in s.tasks ==> t in s'.tasks && SameTask(s.tasks[t], s'.tasks[t])
  }

  ghost predicate Grows(s: State, s': State) {
    && NotificationsGrow(s, s') && TasksGrow(s, s')
    && s.history.published <= s'.history.published
    && s.history.accepted <= s'.history.accepted
  }


  lemma WorkGrows(cfg: Config, s: State, w: nat, built: bool, outcome: Outcome)
    requires WorkEnabled(s, w)
    requires SnapshotOk(cfg, s, s.workers[w].task, s.workers[w].stage)
    ensures Grows(s, WorkNext(cfg, s, w, built, outcome))
  {
  }

  lemma DispatchGrows(cfg: Config, s: State, d: nat, t: nat)
    requires DispatchEnabled(cfg, s, d, t)
    requires DispatcherOk(cfg, s, s.dispatchers[d]) && DispatchedOk(cfg, s)
    ensures Grows(s, DispatchNext(cfg, s, d, t))
  {
  }

  lemma StepGrows(cfg: Config, s: State, a: Action)
    requires Structure(cfg, s) && Enabled(cfg, s, a)
    ensures Grows(s, Next(cfg, s, a))
  {
    hide Structure, Grows;
    match a {
      case Work(w, ok, built, outcome) =>
        assert SnapshotOk(cfg, s, s.workers[w].task, s.workers[w].stage) by { WorkerIsOk(cfg, s, w); }
        if ok { WorkGrows(cfg, s, w, built, outcome); } else { SameGrows(s, Next(cfg, s, a)); }
      case Dispatch(d, ok, t) =>
        DispatcherIsOk(cfg, s, d);
        if ok { DispatchGrows(cfg, s, d, t); } else { SameGrows(s, Next(cfg, s, a)); }
      case Arrive(n, eventType) => ArriveGrows(s, n, eventType);
      case _ => SameGrows(s, Next(cfg, s, a));
    }
  }

  lemma WorkerIsOk(cfg: Config, s: State, w: nat)
    requires Structure(cfg, s) && WorkEnabled(s, w)
    ensures SnapshotOk(cfg, s, s.workers[w].task, s.workers[w].stage)
  {
  }

  lemma DispatcherIsOk(cfg: Config, s: State, d: nat)
    requires Structure(cfg, s) && d in s.dispatchers
    ensures DispatcherOk(cfg, s, s.dispatchers[d]) && DispatchedOk(cfg, s)
  {
  }

  lemma SameGrows(s: State, s': State)
    requires s'.notifications == s.notifications && s'.tasks == s.tasks
    requires s'.history.published == s.history.published && s'.history.accepted == s.history.accepted
    ensures Grows(s, s')
  {
  }

  lemma ArriveGrows(s: State, n: nat, eventType: string)
    requires n !in s.notifications
    ensures Grows(s, s.(notifications := s.notifications[n := Notification(eventType, Pending)]))
  {
  }

  // ---------------------------------------------------------------- the rows

  lemma HasRowKept(s: State, s': State, n: nat, vendor: string)
    requires TasksGrow(s, s') && HasRow(s.tasks, n, vendor)
    ensures HasRow(s'.tasks, n, vendor)
  {
    var t :| t in s.tasks && s.tasks[t].notification == n && s.tasks[t].vendor == vendor;
    assert SameTask(s.tasks[t], s'.tasks[t]);
  }

  lemma WorkKeepsRows(cfg: Config, s: State, w: nat, built: bool, outcome: Outcome)
    requires WorkEnabled(s, w) && RowsOk(cfg, s)
    requires SnapshotOk(cfg, s, s.workers[w].task, s.workers[w].stage)
    ensures RowsOk(cfg, WorkNext(cfg, s, w, built, outcome))
  {
  }

  lemma DispatchKeepsRows(cfg: Config, s: State, d: nat, newTask: nat)
    requires DispatchEnabled(cfg, s, d, newTask) && RowsOk(cfg, s)
    requires DispatcherOk(cfg, s, s.dispatchers[d])
    ensures RowsOk(cfg, DispatchNext(cfg, s, d, newTask))
  {
  }

  /** The rows of `s'` are those of `s`, and a row for a first vendor or for one that has it. */
  lemma FirstRowFrame(cfg: Config, s: State, s': State)
    requires FirstRowOk(cfg, s) && TasksGrow(s, s')
    requires forall t :: t in s'.tasks && t !in s.tasks && Vendors(cfg, s'.tasks[t].eventType) != [] ==>
               HasRow(s'.tasks, s'.tasks[t].notification, Vendors(cfg, s'.tasks[t].eventType)[0])
    ensures FirstRowOk(cfg, s')
  {
    forall t | t in s'.tasks && Vendors(cfg, s'.tasks[t].eventType) != []
      ensures HasRow(s'.tasks, s'.tasks[t].notification, Vendors(cfg, s'.tasks[t].eventType)[0])
    {
      if t in s.tasks {
        assert SameTask(s.tasks[t], s'.tasks[t]);
        HasRowKept(s, s', s.tasks[t].notification, Vendors(cfg, s.tasks[t].eventType)[0]);
      }
    }
  }

  lemma WorkKeepsFirstRow(cfg: Config, s: State, w: nat, built: bool, outcome: Outcome)
    requires WorkEnabled(s, w) && FirstRowOk(cfg, s)
    requires Grows(s, WorkNext(cfg, s, w, built, outcome))
    ensures FirstRowOk(cfg, WorkNext(cfg, s, w, built, outcome))
  {
    var s' := WorkNext(cfg, s, w, built, outcome);
    assert s'.tasks.Keys == s.tasks.Keys;
    FirstRowFrame(cfg, s, s');
  }

  lemma DispatchKeepsFirstRow(cfg: Config, s: State, d: nat, newTask: nat)
    requires DispatchEnabled(cfg, s, d, newTask) && FirstRowOk(cfg, s)
    requires DispatcherOk(cfg, s, s.dispatchers[d]) && Grows(s, DispatchNext(cfg, s, d, newTask))
    ensures FirstRowOk(cfg, DispatchNext(cfg, s, d, newTask))
  {
    var s' := DispatchNext(cfg, s, d, newTask);
    var n, stage := s.dispatchers[d].notification, s.dispatchers[d].stage;
    if newTask in s'.tasks && newTask !in s.tasks {
      var u := if stage.created == [] then newTask else stage.created[0];
      assert u in s'.tasks && s'.tasks[u].notification == n &&
          s'.tasks[u].vendor == VendorsOf(cfg, s.notifications, n)[0];
      assert HasRow(s'.tasks, n, VendorsOf(cfg, s.notifications, n)[0]);
    }
    FirstRowFrame(cfg, s, s');
  }

  lemma WorkKeepsUnique(cfg: Config, s: State, w: nat, built: bool, outcome: Outcome)
    requires WorkEnabled(s, w) && UniqueTasks(s)
    ensures UniqueTasks(WorkNext(cfg, s, w, built, outcome))
  {
  }

  lemma DispatchKeepsUnique(cfg: Config, s: State, d: nat, newTask: nat)
    requires DispatchEnabled(cfg, s, d, newTask) && UniqueTasks(s)
    ensures UniqueTasks(DispatchNext(cfg, s, d, newTask))
  {
  }

  // ---------------------------------------------------------------- the queues

  ghost predicate QueuesOk(s: State) {
    && s.triggers <= s.notifications.Keys
    && s.history.published <= s.tasks.Keys
    && (forall t :: t in s.deliveryQueue ==> t in s.history.published)
    && (forall m :: m in s.retryQueue ==> m.task in s.history.published)
  }

  lemma PublishedFrame(s: State, s': State)
    requires PublishedOk(s) && Grows(s, s') && QueuesOk(s')
    requires forall t :: t in s'.history.published && t !in s.history.published ==>
               t in s'.tasks && s'.tasks[t].notification in s'.notifications
               && s'.notifications[s'.tasks[t].notification].status != Pending
    ensures PublishedOk(s')
  {
    forall t | t in s.history.published
      ensures s'.tasks[t].notification in s'.notifications
      ensures s'.notifications[s'.tasks[t].notification].status != Pending
    {
      assert SameTask(s.tasks[t], s'.tasks[t]);
    }
  }

  lemma WorkKeepsPublished(cfg: Config, s: State, w: nat, built: bool, outcome: Outcome)
    requires WorkEnabled(s, w) && PublishedOk(s) && s.workers[w].task in s.history.published
    requires Grows(s, WorkNext(cfg, s, w, built, outcome))
    ensures PublishedOk(WorkNext(cfg, s, w, built, outcome))
  {
    hide Grows, WorkerAfter;
    PublishedFrame(s, WorkNext(cfg, s, w, built, outcome));
  }

  lemma DispatchKeepsPublished(cfg: Config, s: State, d: nat, newTask: nat)
    requires DispatchEnabled(cfg, s, d, newTask) && PublishedOk(s)
    requires DispatcherOk(cfg, s, s.dispatchers[d]) && Grows(s, DispatchNext(cfg, s, d, newTask))
    ensures PublishedOk(DispatchNext(cfg, s, d, newTask))
  {
    hide Grows, DispatcherAfter;
    PublishedFrame(s, DispatchNext(cfg, s, d, newTask));
  }

  // ---------------------------------------------------------------- the workers

  /** A worker that did not move keeps a good snapshot. */
  lemma WorkersFrame(cfg: Config, s: State, s': State, w: nat)
    requires WorkersOk(cfg, s) && Grows(s, s')
    requires forall v :: v in s'.workers && v != w ==> v in s.workers && s'.workers[v] == s.workers[v]
    requires w in s'.workers && s'.workers[w].Busy? ==>
               s'.workers[w].task in s'.history.published &&
                   SnapshotOk(cfg, s', s'.workers[w].task, s'.workers[w].stage)
    ensures WorkersOk(cfg, s')
  {
  }

  lemma WorkKeepsSnapshot(cfg: Config, s: State, w: nat, built: bool, outcome: Outcome)
    requires WorkEnabled(s, w) && SnapshotOk(cfg, s, s.workers[w].task, s.workers[w].stage)
    ensures var s' := WorkNext(cfg, s, w, built, outcome);
            s'.workers[w].Busy? ==> SnapshotOk(cfg, s', s.workers[w].task, s'.workers[w].stage)
  {
  }

  lemma WorkKeepsWorkers(cfg: Config, s: State, w: nat, built: bool, outcome: Outcome)
    requires WorkEnabled(s, w) && WorkersOk(cfg, s) && Grows(s, WorkNext(cfg, s, w, built, outcome))
    ensures WorkersOk(cfg, WorkNext(cfg, s, w, built, outcome))
  {
    hide Grows, SnapshotOk;
    var s' := WorkNext(cfg, s, w, built, outcome);
    WorkKeepsSnapshot(cfg, s, w, built, outcome);
    assert s'.workers[w].Busy? ==> s'.workers[w].task == s.workers[w].task;
    assert s'.history.published == s.history.published;
    WorkersFrame(cfg, s, s', w);
  }

  lemma FaultKeepsWorkers(cfg: Config, s: State, w: nat)
    requires WorkEnabled(s, w) && WorkersOk(cfg, s)
    ensures WorkersOk(cfg, WorkFault(s, w))
  {
  }

  // ---------------------------------------------------------------- the dispatchers

  /** A dispatcher that did not move is still right when its notification and its tasks are untouched. */
  lemma DispatcherFrame(cfg: Config, s: State, s': State, pc: Dispatcher)
    requires DispatcherOk(cfg, s, pc) && Grows(s, s')
    requires pc.Dispatching? && Owned(pc) != [] ==>
               && (forall t :: t in Owned(pc) && t in s.tasks ==>
                   s'.tasks[t] == s.tasks[t] && t !in s'.history.published)
               && (pc.notification in s.notifications && s.notifications[pc.notification].status == Pending ==>
                     && s'.notifications[pc.notification].status == Pending
                     && forall t :: t in s'.tasks && s'.tasks[t].notification == pc.notification ==> t in s.tasks)
    ensures DispatcherOk(cfg, s', pc)
  {
  }

  /** A call of a worker leaves the tasks and the notification of a dispatcher alone. */
  lemma WorkSparesOwned(cfg: Config, s: State, w: nat, built: bool, outcome: Outcome, pc: Dispatcher)
    requires WorkEnabled(s, w) && DispatcherOk(cfg, s, pc) && pc.Dispatching?
    requires s.workers[w].task in s.history.published && SnapshotOk(cfg, s, s.workers[w].task, s.workers[w].stage)
    requires s.tasks[s.workers[w].task].notification in s.notifications
    requires s.notifications[s.tasks[s.workers[w].task].notification].status != Pending
    ensures var s' := WorkNext(cfg, s, w, built, outcome);
            && (forall t :: t in Owned(pc) && t in s.tasks ==> t in s'.tasks && s'.tasks[t] == s.tasks[t])
            && (pc.notification in s.notifications && s.notifications[pc.notification].status == Pending ==>
                  pc.notification in s'.notifications && s'.notifications[pc.notification].status == Pending)
  {
    hide WorkerAfter;
  }

  lemma WorkKeepsDispatchers(cfg: Config, s: State, w: nat, built: bool, outcome: Outcome)
    requires WorkEnabled(s, w) && DispatchersOk(cfg, s) && PublishedOk(s) && WorkersOk(cfg, s)
    requires Grows(s, WorkNext(cfg, s, w, built, outcome))
    ensures DispatchersOk(cfg, WorkNext(cfg, s, w, built, outcome))
  {
    hide WorkerAfter, SnapshotOk, Grows;
    var s' := WorkNext(cfg, s, w, built, outcome);
    assert s'.tasks.Keys == s.tasks.Keys && s'.history.published == s.history.published;
    forall d | d in s.dispatchers ensures DispatcherOk(cfg, s', s.dispatchers[d]) {
      var pc := s.dispatchers[d];
      if pc.Dispatching? {
        WorkSparesOwned(cfg, s, w, built, outcome, pc);
        OwnedUnpublished(cfg, s, pc);
      }
      DispatcherFrame(cfg, s, s', pc);
    }
  }

  lemma OwnedUnpublished(cfg: Config, s: State, pc: Dispatcher)
    requires DispatcherOk(cfg, s, pc)
    ensures forall t :: t in Owned(pc) ==> Fresh(s, pc.notification, t)
  {
  }

  lemma OwnerHasFirstRow(cfg: Config, s: State, e: nat)
    requires RowsOk(cfg, s) && FirstRowOk(cfg, s)
    requires e in s.dispatchers && DispatcherOk(cfg, s, s.dispatchers[e]) && Owned(s.dispatchers[e]) != []
    ensures VendorsOf(cfg, s.notifications, s.dispatchers[e].notification) != []
    ensures HasRow(s.tasks, s.dispatchers[e].notification,
        VendorsOf(cfg, s.notifications, s.dispatchers[e].notification)[0])
  {
    var t := Owned(s.dispatchers[e])[0];
    OwnedUnpublished(cfg, s, s.dispatchers[e]);
    assert Fresh(s, s.dispatchers[e].notification, t);
    assert HasRow(s.tasks, s.tasks[t].notification, Vendors(cfg, s.tasks[t].eventType)[0]);
  }

  /** Two dispatchers never own tasks of one notification: the second one's first insert is an error. */
  lemma InsertExcludes(cfg: Config, s: State, d: nat, e: nat)
    requires Structure(cfg, s) && d in s.dispatchers && e in s.dispatchers && d != e
    requires s.dispatchers[d].Dispatching? && s.dispatchers[d].stage.InsertTask?
    requires |s.dispatchers[d].stage.created| < |VendorsOf(cfg, s.notifications, s.dispatchers[d].notification)|
    requires InsertSucceeds(cfg, s, s.dispatchers[d].notification, s.dispatchers[d].stage.created)
    requires Owned(s.dispatchers[e]) != []
    ensures s.dispatchers[d].notification != s.dispatchers[e].notification
  {
    OwnerHasFirstRow(cfg, s, e);
  }

  /** The dispatcher that moved is right afterwards. */
  lemma DispatchKeepsSelf(cfg: Config, s: State, d: nat, newTask: nat)
    requires DispatchEnabled(cfg, s, d, newTask) && Structure(cfg, s)
    ensures var s' := DispatchNext(cfg, s, d, newTask);
            DispatcherOk(cfg, s', s'.dispatchers[d])
  {
    var n, stage := s.dispatchers[d].notification, s.dispatchers[d].stage;
    match stage {
      case InsertTask(created) => if InsertSucceeds(cfg, s, n, created) { InsertKeepsSelf(cfg, s, d, newTask); }
      case _ => OtherStageKeepsSelf(cfg, s, d, newTask);
    }
  }

  lemma OtherStageKeepsSelf(cfg: Config, s: State, d: nat, newTask: nat)
    requires DispatchEnabled(cfg, s, d, newTask) && !s.dispatchers[d].stage.InsertTask?
    requires DispatcherOk(cfg, s, s.dispatchers[d])
    ensures var s' := DispatchNext(cfg, s, d, newTask);
            DispatcherOk(cfg, s', s'.dispatchers[d])
  {
  }

  lemma InsertKeepsSelf(cfg: Config, s: State, d: nat, newTask: nat)
    requires DispatchEnabled(cfg, s, d, newTask) && Structure(cfg, s) && s.dispatchers[d].stage.InsertTask?
    requires InsertSucceeds(cfg, s, s.dispatchers[d].notification, s.dispatchers[d].stage.created)
    ensures var s' := DispatchNext(cfg, s, d, newTask);
            DispatcherOk(cfg, s', s'.dispatchers[d])
  {
    var s' := DispatchNext(cfg, s, d, newTask);
    var n, created := s.dispatchers[d].notification, s.dispatchers[d].stage.created;
    assert DispatcherOk(cfg, s, s.dispatchers[d]);
    assert CreatedOk(cfg, s', n, created + [newTask]) by { InsertKeepsCreated(cfg, s, n, created, newTask, s'); }
  }

  lemma InsertKeepsCreated(cfg: Config, s: State, n: nat, created: seq<nat>, newTask: nat, s': State)
    requires Structure(cfg, s) && CreatedOk(cfg, s, n, created) && |created| < |VendorsOf(cfg, s.notifications, n)|
    requires InsertSucceeds(cfg, s, n, created) && newTask !in s.tasks
    requires s'.notifications == s.notifications && s'.history.published == s.history.published
    requires s'.tasks == s.tasks[newTask := Task(n, NextVendor(cfg, s.notifications, n, created),
        s.notifications[n].eventType, TaskPending, 0)]
    ensures CreatedOk(cfg, s', n, created + [newTask])
  {
    hide DispatchersOk, WorkersOk, UniqueTasks;
    assert created == [] ==> s.notifications[n].status == Pending by { InsertMeansPending(cfg, s, n); }
    assert created == [] ==> forall t :: t in s.tasks ==>
        s.tasks[t].notification != n by { InsertMeansNoRows(cfg, s, n); }
    CreatedExtends(cfg, s, n, created, newTask, s');
  }

  lemma InsertMeansPending(cfg: Config, s: State, n: nat)
    requires DispatchedOk(cfg, s) && n in s.notifications && VendorsOf(cfg, s.notifications, n) != []
    ensures s.notifications[n].status != Pending ==> HasRow(s.tasks, n, VendorsOf(cfg, s.notifications, n)[0])
  {
  }

  lemma InsertMeansNoRows(cfg: Config, s: State, n: nat)
    requires RowsOk(cfg, s) && FirstRowOk(cfg, s) && n in s.notifications && VendorsOf(cfg, s.notifications, n) != []
    ensures (exists t :: t in s.tasks && s.tasks[t].notification == n) ==>
        HasRow(s.tasks, n, VendorsOf(cfg, s.notifications, n)[0])
  {
  }

  lemma CreatedExtends(cfg: Config, s: State, n: nat, created: seq<nat>, newTask: nat, s': State)
    requires CreatedOk(cfg, s, n, created) && |created| < |VendorsOf(cfg, s.notifications, n)|
    requires newTask !in s.tasks && s.history.published <= s.tasks.Keys
    requires s'.notifications == s.notifications && s'.history.published == s.history.published
    requires s'.tasks == s.tasks[newTask := Task(n, NextVendor(cfg, s.notifications, n, created),
        s.notifications[n].eventType, TaskPending, 0)]
    requires s.notifications[n].status == Pending
    requires created == [] ==> forall t :: t in s.tasks ==> s.tasks[t].notification != n
    ensures CreatedOk(cfg, s', n, created + [newTask])
  {
  }

  lemma DispatchKeepsDispatchers(cfg: Config, s: State, d: nat, newTask: nat)
    requires DispatchEnabled(cfg, s, d, newTask) && Structure(cfg, s)
    requires Grows(s, DispatchNext(cfg, s, d, newTask))
    ensures DispatchersOk(cfg, DispatchNext(cfg, s, d, newTask))
  {
    var s' := DispatchNext(cfg, s, d, newTask);
    DispatchKeepsSelf(cfg, s, d, newTask);
    forall e | e in s.dispatchers && e != d
      ensures DispatcherOk(cfg, s', s'.dispatchers[e])
      ensures Owned(s'.dispatchers[e]) != [] && Owned(s'.dispatchers[d]) != [] ==>
                s'.dispatchers[e].notification != s'.dispatchers[d].notification
    {
      DispatchSpares(cfg, s, d, newTask, e);
    }
  }

  /** A call of a dispatcher leaves the tasks and the notification of another owner alone. */
  lemma DispatchSparesOwned(cfg: Config, s: State, d: nat, newTask: nat, pc: Dispatcher)
    requires DispatchEnabled(cfg, s, d, newTask)
    requires DispatcherOk(cfg, s, s.dispatchers[d]) && DispatcherOk(cfg, s, pc) && Owned(pc) != []
    requires Owned(s.dispatchers[d]) != [] ==> s.dispatchers[d].notification != pc.notification
    requires s.dispatchers[d].stage.InsertTask?
             && InsertSucceeds(cfg, s, s.dispatchers[d].notification, s.dispatchers[d].stage.created)
             ==> s.dispatchers[d].notification != pc.notification
    ensures var s' := DispatchNext(cfg, s, d, newTask);
            && (forall t :: t in Owned(pc) && t in s.tasks ==> t in s'.tasks && s'.tasks[t] == s.tasks[t])
            && (forall t :: t in Owned(pc) ==> t !in s'.history.published)
            && (pc.notification in s.notifications && s.notifications[pc.notification].status == Pending ==>
                  && pc.notification in s'.notifications && s'.notifications[pc.notification].status == Pending
                  && forall t :: t in s'.tasks && s'.tasks[t].notification == pc.notification ==> t in s.tasks)
  {
    hide DispatcherAfter;
    OwnedUnpublished(cfg, s, pc);
    OwnedUnpublished(cfg, s, s.dispatchers[d]);
    var stage := s.dispatchers[d].stage;
    if stage.PublishTasks? { assert stage.remaining[0] in Owned(s.dispatchers[d]); }
  }

  lemma DispatchSpares(cfg: Config, s: State, d: nat, newTask: nat, e: nat)
    requires DispatchEnabled(cfg, s, d, newTask) && Structure(cfg, s) && e in s.dispatchers && e != d
    requires Grows(s, DispatchNext(cfg, s, d, newTask))
    ensures var s' := DispatchNext(cfg, s, d, newTask);
            && s'.dispatchers[e] == s.dispatchers[e]
            && DispatcherOk(cfg, s', s.dispatchers[e])
            && (Owned(s'.dispatchers[e]) != [] && Owned(s'.dispatchers[d]) != [] ==>
                  s'.dispatchers[e].notification != s'.dispatchers[d].notification)
  {
    hide Grows, WorkersOk, UniqueTasks, DispatchedOk, PublishedOk;
    var s' := DispatchNext(cfg, s, d, newTask);
    var stage := s.dispatchers[d].stage;
    assert DispatcherOk(cfg, s, s.dispatchers[d]) && DispatcherOk(cfg, s, s.dispatchers[e]);
    hide DispatcherOk, DispatchersOk;
    if Owned(s.dispatchers[e]) != [] {
      if stage.InsertTask? {
        if InsertSucceeds(cfg, s, s.dispatchers[d].notification, stage.created) { InsertExcludes(cfg, s, d, e); }
      }
      DispatchSparesOwned(cfg, s, d, newTask, s.dispatchers[e]);
    }
    DispatcherFrame(cfg, s, s', s.dispatchers[e]);
  }

  // ---------------------------------------------------------------- the dispatched notifications

  /** A notification already dispatched stays so; a new one must be shown to be. */
  lemma DispatchedFrame(cfg: Config, s: State, s': State)
    requires DispatchedOk(cfg, s) && Grows(s, s')
    requires forall n :: n in s'.notifications && n !in s.notifications ==> s'.notifications[n].status == Pending
    requires forall n :: n in s.notifications && s'.notifications[n].status != s.notifications[n].status ==>
               && (VendorsOf(cfg, s.notifications, n) == [] ==> s'.notifications[n].status == Failed)
               && NoDuplicates(VendorsOf(cfg, s.notifications, n))
               && forall i :: 0 <= i < |VendorsOf(cfg, s.notifications, n)| ==>
                   HasRow(s.tasks, n, VendorsOf(cfg, s.notifications, n)[i])
    ensures DispatchedOk(cfg, s')
  {
    forall n | n in s'.notifications && s'.notifications[n].status != Pending
      ensures VendorsOf(cfg, s'.notifications, n) == [] ==> s'.notifications[n].status == Failed
      ensures NoDuplicates(VendorsOf(cfg, s'.notifications, n))
      ensures forall i :: 0 <= i < |VendorsOf(cfg, s'.notifications, n)| ==>
                HasRow(s'.tasks, n, VendorsOf(cfg, s'.notifications, n)[i])
    {
      assert n in s.notifications;
      var vendors := VendorsOf(cfg, s.notifications, n);
      assert VendorsOf(cfg, s'.notifications, n) == vendors;
      forall i | 0 <= i < |vendors| ensures HasRow(s'.tasks, n, vendors[i]) {
        HasRowKept(s, s', n, vendors[i]);
      }
    }
  }

  lemma WorkKeepsDispatched(cfg: Config, s: State, w: nat, built: bool, outcome: Outcome)
    requires WorkEnabled(s, w) && Structure(cfg, s) && Grows(s, WorkNext(cfg, s, w, built, outcome))
    ensures DispatchedOk(cfg, WorkNext(cfg, s, w, built, outcome))
  {
    var stage := s.workers[w].stage;
    hide *;
    DispatchedNow(cfg, s);
    WorkWritesOne(cfg, s, w, built, outcome);
    if stage.WriteStatus? {
      WriterTargetsRouted(cfg, s, w);
      OneStatusFrame(cfg, s, WorkNext(cfg, s, w, built, outcome), stage.row.notification);
    } else {
      NoStatusFrame(cfg, s, WorkNext(cfg, s, w, built, outcome));
    }
  }

  /** Only the status of `n`, which was dispatched and has vendors, changes. */
  lemma OneStatusFrame(cfg: Config, s: State, s': State, n: nat)
    requires DispatchedOk(cfg, s) && Grows(s, s') && s'.notifications.Keys == s.notifications.Keys
    requires forall m :: m in s.notifications && m != n ==> s'.notifications[m] == s.notifications[m]
    requires n in s.notifications && s.notifications[n].status != Pending && VendorsOf(cfg, s.notifications, n) != []
    ensures DispatchedOk(cfg, s')
  {
    DispatchedMeans(cfg, s, n);
    hide Grows, DispatchedOk, NoDuplicates, HasRow, VendorsOf;
    DispatchedFrame(cfg, s, s');
  }

  lemma NoStatusFrame(cfg: Config, s: State, s': State)
    requires DispatchedOk(cfg, s) && Grows(s, s') && s'.notifications.Keys == s.notifications.Keys
    requires forall m :: m in s.notifications ==> s'.notifications[m] == s.notifications[m]
    ensures DispatchedOk(cfg, s')
  {
    hide Grows, DispatchedOk, NoDuplicates, HasRow, VendorsOf;
    DispatchedFrame(cfg, s, s');
  }

  lemma DispatchedNow(cfg: Config, s: State)
    requires Structure(cfg, s)
    ensures DispatchedOk(cfg, s)
  {
  }

  lemma DispatchedMeans(cfg: Config, s: State, n: nat)
    requires DispatchedOk(cfg, s) && n in s.notifications && s.notifications[n].status != Pending
    ensures NoDuplicates(VendorsOf(cfg, s.notifications, n))
    ensures forall i :: 0 <= i < |VendorsOf(cfg, s.notifications, n)| ==>
              HasRow(s.tasks, n, VendorsOf(cfg, s.notifications, n)[i])
  {
  }

  lemma WriterTargetsRouted(cfg: Config, s: State, w: nat)
    requires WorkEnabled(s, w) && Structure(cfg, s) && s.workers[w].stage.WriteStatus?
    ensures var n := s.workers[w].stage.row.notification;
            n in s.notifications && s.notifications[n].status != Pending && VendorsOf(cfg, s.notifications, n) != []
  {
    assert SnapshotOk(cfg, s, s.workers[w].task, s.workers[w].stage) && s.workers[w].task in s.history.published;
    hide DispatchersOk, DispatchedOk, FirstRowOk, UniqueTasks;
  }

  /** A worker writes at most one status. */
  lemma WorkWritesOne(cfg: Config, s: State, w: nat, built: bool, outcome: Outcome)
    requires WorkEnabled(s, w)
    ensures var s', stage := WorkNext(cfg, s, w, built, outcome), s.workers[w].stage;
            && s'.notifications.Keys == s.notifications.Keys
            && forall n :: n in s.notifications ==>
                 s'.notifications[n] == s.notifications[n] || (stage.WriteStatus? && stage.row.notification == n)
  {
    hide WorkerAfter, TasksAfterWork;
  }

  lemma DispatchKeepsDispatched(cfg: Config, s: State, d: nat, newTask: nat)
    requires DispatchEnabled(cfg, s, d, newTask) && Structure(cfg, s) && Grows(s, DispatchNext(cfg, s, d, newTask))
    ensures DispatchedOk(cfg, DispatchNext(cfg, s, d, newTask))
  {
    hide Grows, WorkersOk, DispatcherAfter;
    var s' := DispatchNext(cfg, s, d, newTask);
    var n, stage := s.dispatchers[d].notification, s.dispatchers[d].stage;
    assert DispatcherOk(cfg, s, s.dispatchers[d]);
    if stage.MarkDelivering? {
      var vendors := VendorsOf(cfg, s.notifications, n);
      forall i | 0 <= i < |vendors| ensures HasRow(s.tasks, n, vendors[i]) {
        assert Fresh(s, n, stage.created[i]);
      }
      forall i, j | 0 <= i < j < |vendors| ensures vendors[i] != vendors[j] {
        assert Fresh(s, n, stage.created[i]) && Fresh(s, n, stage.created[j]);
      }
    }
    DispatchedFrame(cfg, s, s');
  }

  // ---------------------------------------------------------------- every step

  lemma QuietRows(cfg: Config, s: State, s': State)
    requires RowsOk(cfg, s) && FirstRowOk(cfg, s) && UniqueTasks(s) && DispatchedOk(cfg, s)
    requires s'.notifications == s.notifications && s'.tasks == s.tasks
    ensures RowsOk(cfg, s') && FirstRowOk(cfg, s') && UniqueTasks(s') && DispatchedOk(cfg, s')
  {
  }

  lemma QuietWorkers(cfg: Config, s: State, s': State)
    requires WorkersOk(cfg, s) && s'.tasks == s.tasks
    requires s'.history.published == s.history.published && s'.history.accepted == s.history.accepted
    requires forall w :: w in s'.workers && s'.workers[w].Busy? ==>
               || (w in s.workers && s'.workers[w] == s.workers[w])
               || (s'.workers[w].task in s.history.published &&
                   SnapshotOk(cfg, s, s'.workers[w].task, s'.workers[w].stage))
    ensures WorkersOk(cfg, s')
  {
  }

  lemma QuietDispatchers(cfg: Config, s: State, s': State)
    requires DispatchersOk(cfg, s) && s'.notifications == s.notifications && s'.tasks == s.tasks
    requires s'.history.published == s.history.published
    requires forall d :: d in s'.dispatchers ==>
               || (d in s.dispatchers && s'.dispatchers[d] == s.dispatchers[d])
               || s'.dispatchers[d].Waiting? || s'.dispatchers[d].stage.Load?
    ensures DispatchersOk(cfg, s')
  {
    forall d | d in s'.dispatchers ensures DispatcherOk(cfg, s', s'.dispatchers[d]) {
      if d in s.dispatchers && s'.dispatchers[d] == s.dispatchers[d] {
        QuietDispatcher(cfg, s, s', s.dispatchers[d]);
      }
    }
  }

  lemma QuietDispatcher(cfg: Config, s: State, s': State, pc: Dispatcher)
    requires DispatcherOk(cfg, s, pc) && s'.notifications == s.notifications && s'.tasks == s.tasks
    requires s'.history.published == s.history.published
    ensures DispatcherOk(cfg, s', pc)
  {
  }

  /** A step that writes no row: failing calls, message moves, crashes. */
  lemma QuietStep(cfg: Config, s: State, s': State)
    requires Structure(cfg, s)
    requires s'.notifications == s.notifications && s'.tasks == s.tasks
    requires s'.history.published == s.history.published && s'.history.accepted == s.history.accepted
    requires QueuesOk(s') && WorkersOk(cfg, s')
    requires s'.dispatchers == s.dispatchers
    ensures Structure(cfg, s')
  {
    assert PublishedOk(s');
    hide RowsOk, FirstRowOk, UniqueTasks, DispatchedOk, PublishedOk, WorkersOk, DispatchersOk, QueuesOk;
    QuietRows(cfg, s, s');
    QuietDispatchers(cfg, s, s');
  }

  lemma FaultKeeps(cfg: Config, s: State, w: nat)
    requires Structure(cfg, s) && WorkEnabled(s, w)
    ensures Structure(cfg, WorkFault(s, w))
  {
    hide RowsOk, FirstRowOk, UniqueTasks, DispatchersOk, DispatchedOk;
    FaultKeepsWorkers(cfg, s, w);
    hide WorkersOk;
    QuietStep(cfg, s, WorkFault(s, w));
  }

  lemma TakeKeeps(cfg: Config, s: State, w: nat, t: nat)
    requires Structure(cfg, s) && t in s.deliveryQueue
    ensures Structure(cfg, TakeNext(s, w, t))
  {
    hide RowsOk, FirstRowOk, UniqueTasks, DispatchersOk, DispatchedOk;
    var s' := TakeNext(s, w, t);
    QuietWorkers(cfg, s, s');
    hide WorkersOk;
    QuietStep(cfg, s, s');
  }

  lemma CrashKeeps(cfg: Config, s: State, w: nat)
    requires Structure(cfg, s) && WorkEnabled(s, w)
    ensures Structure(cfg, CrashNext(s, w))
  {
    hide RowsOk, FirstRowOk, UniqueTasks, DispatchersOk, DispatchedOk;
    var s' := CrashNext(s, w);
    QuietWorkers(cfg, s, s');
    assert s.workers[w].task in s.history.published;
    hide WorkersOk;
    QuietStep(cfg, s, s');
  }

  lemma ExpireKeeps(cfg: Config, s: State, t: nat)
    requires Structure(cfg, s) && RetryMessage(t, true) in s.retryQueue
    ensures Structure(cfg, ExpireNext(s, t))
  {
    hide RowsOk, FirstRowOk, UniqueTasks, DispatchersOk, DispatchedOk;
    var s' := ExpireNext(s, t);
    QuietWorkers(cfg, s, s');
    hide WorkersOk;
    QuietStep(cfg, s, s');
  }

  lemma TriggerKeeps(cfg: Config, s: State, n: nat)
    requires Structure(cfg, s) && n in s.notifications
    ensures Structure(cfg, s.(triggers := s.triggers + {n}))
  {
    var s' := s.(triggers := s.triggers + {n});
    hide RowsOk, FirstRowOk, UniqueTasks, DispatchersOk, DispatchedOk;
    QuietWorkers(cfg, s, s');
    hide WorkersOk;
    QuietStep(cfg, s, s');
  }

  /** A dispatcher that starts or gives up. */
  lemma RestartKeeps(cfg: Config, s: State, d: nat, pc: Dispatcher, h: History)
    requires Structure(cfg, s) && (pc.Waiting? || pc.stage.Load?)
    requires h.published == s.history.published && h.accepted == s.history.accepted
    ensures Structure(cfg, s.(dispatchers := s.dispatchers[d := pc], history := h))
  {
    var s' := s.(dispatchers := s.dispatchers[d := pc], history := h);
    assert PublishedOk(s');
    hide RowsOk, FirstRowOk, UniqueTasks, DispatchersOk, DispatchedOk, PublishedOk;
    QuietWorkers(cfg, s, s');
    hide WorkersOk;
    QuietRows(cfg, s, s');
    QuietDispatchers(cfg, s, s');
  }

  lemma ArriveKeepsRows(cfg: Config, s: State, n: nat, eventType: string)
    requires RowsOk(cfg, s) && UniqueTasks(s) && PublishedOk(s) && n !in s.notifications
    ensures var s' := s.(notifications := s.notifications[n := Notification(eventType, Pending)]);
            RowsOk(cfg, s') && UniqueTasks(s') && PublishedOk(s')
  {
  }

  lemma ArriveKeepsDispatchers(cfg: Config, s: State, n: nat, eventType: string)
    requires DispatchersOk(cfg, s) && n !in s.notifications
    ensures DispatchersOk(cfg, s.(notifications := s.notifications[n := Notification(eventType, Pending)]))
  {
    var s' := s.(notifications := s.notifications[n := Notification(eventType, Pending)]);
    ArriveGrows(s, n, eventType);
    hide Grows;
    forall d | d in s.dispatchers ensures DispatcherOk(cfg, s', s.dispatchers[d]) {
      OwnedUnpublished(cfg, s, s.dispatchers[d]);
      DispatcherFrame(cfg, s, s', s.dispatchers[d]);
    }
  }

  lemma ArriveKeeps(cfg: Config, s: State, n: nat, eventType: string)
    requires Structure(cfg, s) && n !in s.notifications
    ensures Structure(cfg, s.(notifications := s.notifications[n := Notification(eventType, Pending)]))
  {
    var s' := s.(notifications := s.notifications[n := Notification(eventType, Pending)]);
    ArriveGrows(s, n, eventType);
    hide RowsOk, UniqueTasks, PublishedOk, WorkersOk, DispatchersOk;
    assert TasksGrow(s, s');
    hide Grows, DispatchedOk, FirstRowOk;
    DispatchedFrame(cfg, s, s');
    FirstRowFrame(cfg, s, s');
    WorkersSame(cfg, s, s');
    ArriveKeepsRows(cfg, s, n, eventType);
    ArriveKeepsDispatchers(cfg, s, n, eventType);
  }

  lemma WorkersSame(cfg: Config, s: State, s': State)
    requires WorkersOk(cfg, s) && Grows(s, s') && s'.workers == s.workers
    ensures WorkersOk(cfg, s')
  {
  }

  lemma WorkKeeps(cfg: Config, s: State, w: nat, built: bool, outcome: Outcome)
    requires Structure(cfg, s) && WorkEnabled(s, w)
    ensures Structure(cfg, WorkNext(cfg, s, w, built, outcome))
  {
    WorkerIsOk(cfg, s, w);
    WorkGrows(cfg, s, w, built, outcome);
    WorkKeepsDispatched(cfg, s, w, built, outcome);
    hide RowsOk, FirstRowOk, UniqueTasks, PublishedOk, DispatchersOk, DispatchedOk, Grows, SnapshotOk;
    assert s.workers[w].task in s.history.published;
    WorkKeepsRows(cfg, s, w, built, outcome);
    WorkKeepsFirstRow(cfg, s, w, built, outcome);
    WorkKeepsUnique(cfg, s, w, built, outcome);
    WorkKeepsPublished(cfg, s, w, built, outcome);
    WorkKeepsWorkers(cfg, s, w, built, outcome);
    WorkKeepsDispatchers(cfg, s, w, built, outcome);
  }

  lemma DispatchKeeps(cfg: Config, s: State, d: nat, newTask: nat)
    requires Structure(cfg, s) && DispatchEnabled(cfg, s, d, newTask)
    ensures Structure(cfg, DispatchNext(cfg, s, d, newTask))
  {
    DispatcherIsOk(cfg, s, d);
    DispatchGrows(cfg, s, d, newTask);
    DispatchKeepsDispatched(cfg, s, d, newTask);
    DispatchKeepsDispatchers(cfg, s, d, newTask);
    hide RowsOk, FirstRowOk, UniqueTasks, PublishedOk, WorkersOk, DispatchersOk, DispatchedOk, Grows, DispatcherOk;
    DispatchKeepsRows(cfg, s, d, newTask);
    DispatchKeepsFirstRow(cfg, s, d, newTask);
    DispatchKeepsUnique(cfg, s, d, newTask);
    DispatchKeepsPublished(cfg, s, d, newTask);
    WorkersSame(cfg, s, DispatchNext(cfg, s, d, newTask));
  }

  lemma StructureKept(cfg: Config, s: State, a: Action)
    requires Structure(cfg, s) && Enabled(cfg, s, a)
    ensures Structure(cfg, Next(cfg, s, a))
  {
    hide Structure;
    match a {
      case Arrive(n, eventType) => ArriveKeeps(cfg, s, n, eventType);
      case PublishTrigger(n) => TriggerKeeps(cfg, s, n);
      case Receive(d, n) => RestartKeeps(cfg, s, d, Dispatching(n, Load), s.history);
      case Dispatch(d, ok, newTask) =>
        if ok { DispatchKeeps(cfg, s, d, newTask); } else { RestartKeeps(cfg, s, d, Waiting, Fault(s.history)); }
      case DispatcherCrash(d) => RestartKeeps(cfg, s, d, Waiting, Fault(s.history));
      case Take(w, t) => TakeKeeps(cfg, s, w, t);
      case Work(w, ok, built, outcome) =>
        if ok { WorkKeeps(cfg, s, w, built, outcome); } else { FaultKeeps(cfg, s, w); }
      case WorkerCrash(w) => CrashKeeps(cfg, s, w);
      case Expire(t) => ExpireKeeps(cfg, s, t);
    }
  }

  lemma StructureInitially(cfg: Config, s: State)
    requires Init(s)
    ensures Structure(cfg, s) && NotLost(s)
  {
  }

  // ---------------------------------------------------------------- no published task is lost

  ghost predicate Found(s: State, t: nat) {
    || (t in s.tasks && Terminal(s.tasks[t].status))
    || t in s.history.accepted
    || t in s.deliveryQueue
    || RetryMessage(t, true) in s.retryQueue
    || RetryMessage(t, false) in s.retryQueue
    || exists w :: w in s.workers && Holds(s.workers[w], t)
  }

  lemma WorkKeepsFound(cfg: Config, s: State, w: nat, built: bool, outcome: Outcome, t: nat)
    requires WorkEnabled(s, w) && SnapshotOk(cfg, s, s.workers[w].task, s.workers[w].stage)
    requires Grows(s, WorkNext(cfg, s, w, built, outcome)) && Found(s, t)
    ensures Found(WorkNext(cfg, s, w, built, outcome), t)
  {
    hide CountVerdict;
    var s' := WorkNext(cfg, s, w, built, outcome);
    var u, stage := s.workers[w].task, s.workers[w].stage;
    if t in s.tasks && Terminal(s.tasks[t].status) {
      assert SameTask(s.tasks[t], s'.tasks[t]);
    } else if exists v :: v in s.workers && Holds(s.workers[v], t) {
      var v :| v in s.workers && Holds(s.workers[v], t);
      hide Grows;
      if v != w {
        assert Holds(s'.workers[v], t);
      } else {
        assert stage.PublishDelayed? || stage.Nack? || stage.CountTasks? || stage.WriteStatus? ||
            Holds(s'.workers[w], t);
      }
    }
  }

  /** A step that removes no message and no worker's hold. */
  lemma FoundFrame(s: State, s': State, t: nat)
    requires Found(s, t)
    requires s'.tasks == s.tasks && s'.history.accepted == s.history.accepted
    requires s.deliveryQueue <= s'.deliveryQueue && s.retryQueue <= s'.retryQueue
    requires forall w :: w in s.workers && Holds(s.workers[w], t) ==>
               (w in s'.workers && Holds(s'.workers[w], t)) || t in s'.deliveryQueue || t in s.history.accepted
               || (t in s.tasks && Terminal(s.tasks[t].status))
    ensures Found(s', t)
  {
  }

  lemma FaultKeepsFound(cfg: Config, s: State, w: nat, t: nat)
    requires WorkEnabled(s, w) && SnapshotOk(cfg, s, s.workers[w].task, s.workers[w].stage)
    requires Found(s, t)
    ensures Found(WorkFault(s, w), t)
  {
    hide Found;
    FoundFrame(s, WorkFault(s, w), t);
  }

  lemma TakeKeepsFound(s: State, w: nat, u: nat, t: nat)
    requires w in s.workers && s.workers[w].Idle? && u in s.deliveryQueue && Found(s, t)
    ensures Found(TakeNext(s, w, u), t)
  {
    var s' := TakeNext(s, w, u);
    assert t == u ==> Holds(s'.workers[w], t);
    if exists v :: v in s.workers && Holds(s.workers[v], t) {
      var v :| v in s.workers && Holds(s.workers[v], t);
      assert Holds(s'.workers[v], t);
    }
  }

  lemma ExpireKeepsFound(s: State, u: nat, t: nat)
    requires RetryMessage(u, true) in s.retryQueue && Found(s, t)
    ensures Found(ExpireNext(s, u), t)
  {
    if exists v :: v in s.workers && Holds(s.workers[v], t) {
      var v :| v in s.workers && Holds(s.workers[v], t);
      assert Holds(ExpireNext(s, u).workers[v], t);
    }
  }

  lemma StepKeepsFound(cfg: Config, s: State, a: Action, t: nat)
    requires Structure(cfg, s) && Enabled(cfg, s, a) && Found(s, t) && !a.Dispatch?
    ensures Found(Next(cfg, s, a), t)
  {
    hide Found, Grows, Structure;
    match a {
      case Work(w, ok, built, outcome) =>
        WorkerIsOk(cfg, s, w);
        if ok {
          StepGrows(cfg, s, a);
          WorkKeepsFound(cfg, s, w, built, outcome, t);
        } else {
          FaultKeepsFound(cfg, s, w, t);
        }
      case Take(w, u) => TakeKeepsFound(s, w, u, t);
      case Expire(u) => ExpireKeepsFound(s, u, t);
      case Dispatch(_, _, _) =>
      case _ => FoundFrame(s, Next(cfg, s, a), t);
    }
  }

  lemma OnlyDispatchPublishes(cfg: Config, s: State, a: Action)
    requires Enabled(cfg, s, a) && !a.Dispatch?
    ensures Next(cfg, s, a).history.published == s.history.published
  {
  }

  lemma NotLostKept(cfg: Config, s: State, a: Action)
    requires Structure(cfg, s) && NotLost(s) && Enabled(cfg, s, a)
    ensures NotLost(Next(cfg, s, a))
  {
    StepGrows(cfg, s, a);
    hide Structure, Found, Grows, DispatchNext, WorkNext;
    match a {
      case Dispatch(d, ok, newTask) =>
        forall t | t in Next(cfg, s, a).history.published ensures Found(Next(cfg, s, a), t) {
          DispatchKeepsFound(cfg, s, d, ok, newTask, t);
        }
      case _ =>
        OnlyDispatchPublishes(cfg, s, a);
        forall t | t in s.history.published ensures Found(Next(cfg, s, a), t) {
          StepKeepsFound(cfg, s, a, t);
        }
    }
  }

  lemma DispatchKeepsFound(cfg: Config, s: State, d: nat, ok: bool, newTask: nat, t: nat)
    requires Enabled(cfg, s, Dispatch(d, ok, newTask)) && Grows(s, Next(cfg, s, Dispatch(d, ok, newTask)))
    requires t in s.history.published ==> Found(s, t)
    requires t in Next(cfg, s, Dispatch(d, ok, newTask)).history.published
    ensures Found(Next(cfg, s, Dispatch(d, ok, newTask)), t)
  {
    hide WorkNext, WorkFault, DispatcherAfter;
    var s' := Next(cfg, s, Dispatch(d, ok, newTask));
    assert s'.workers == s.workers && s'.retryQueue == s.retryQueue;
    if t in s.tasks { assert SameTask(s.tasks[t], s'.tasks[t]); }
    hide Grows;
    if t in s.history.published && exists v :: v in s.workers && Holds(s.workers[v], t) {
      var v :| v in s.workers && Holds(s.workers[v], t);
      assert Holds(s'.workers[v], t);
    }
  }
}
