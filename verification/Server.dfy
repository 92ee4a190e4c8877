/**
  The database client, the broker client, the dispatcher and the worker pool as objects whose
  methods update shared tables and queues. Other workers and dispatchers act between any two
  calls (`Interfere`), and every call is recorded as one step of the delivery protocol: at the
  end of a method the history of the whole system is still a run of `Protocol`, so everything
  proved of runs holds of the states this code goes through.
 */
module Server {
  import opened Protocol
  import opened ProtocolInvariants
  import opened ProtocolAbandoning
  import opened ProtocolTheorems

  /** The outcome of a SELECT of one row. */
  datatype Fetched<T> = Found(value: T) | NoRows | FetchFailed

  datatype Inserted = Created | Duplicate | InsertFailed

  datatype Counts = Counts(total: nat, succeeded: nat, deadLetter: nat)

  class Database {
    var notifications: map<nat, Notification>
    var tasks: map<nat, Task>

    constructor ()
      ensures notifications == map[] && tasks == map[]
    {
      notifications, tasks := map[], map[];
    }

    method GetNotification(n: nat) returns (r: Fetched<Notification>)
      ensures r.Found? ==> n in notifications && r.value == notifications[n]
      ensures r.NoRows? ==> n !in notifications
    {
      var failed: bool := *;
      r := if failed then FetchFailed else if n in notifications then Found(notifications[n]) else NoRows;
    }

    method GetDeliveryTask(t: nat) returns (r: Fetched<Task>)
      ensures r.Found? ==> t in tasks && r.value == tasks[t]
      ensures r.NoRows? ==> t !in tasks
    {
      var failed: bool := *;
      r := if failed then FetchFailed else if t in tasks then Found(tasks[t]) else NoRows;
    }

    method UpdateNotificationStatus(n: nat, status: NotificationStatus) returns (ok: bool)
      modifies this`notifications
      ensures notifications == if ok then SetNotificationStatus(old(notifications), n, status) else old(notifications)
    {
      ok := *;
      if ok && n in notifications {
        notifications := notifications[n := notifications[n].(status := status)];
      }
    }

    /** One INSERT of `CreateDeliveryTasks`, under UNIQUE (notification_id, vendor_id). */
    method InsertDeliveryTask(id: nat, n: nat, vendor: string, eventType: string) returns (r: Inserted)
      requires id !in tasks
      modifies this`tasks
      ensures match r
              case InsertFailed => tasks == old(tasks)
              case Duplicate => tasks == old(tasks) && HasRow(tasks, n, vendor)
              case Created =>
                !HasRow(old(tasks), n, vendor) && tasks == old(tasks)[id := Task(n, vendor, eventType, TaskPending, 0)]
    {
      var failed: bool := *;
      if failed { return InsertFailed; }
      if HasRow(tasks, n, vendor) { return Duplicate; }
      tasks := tasks[id := Task(n, vendor, eventType, TaskPending, 0)];
      return Created;
    }

    /** Stands for gen_random_uuid(): an id no row has. */
    method NewId() returns (id: nat)
      ensures id !in tasks
    {
      id := 0;
      var rest := tasks.Keys;
      while rest != {}
        invariant rest <= tasks.Keys
        invariant forall t :: t in tasks && t !in rest ==> t < id
        decreases rest
      {
        var t :| t in rest;
        if id <= t { id := t + 1; }
        rest := rest - {t};
      }
    }

    method UpdateDeliveryTaskStatus(t: nat, status: TaskStatus) returns (ok: bool)
      modifies this`tasks
      ensures tasks == if ok then SetTaskStatus(old(tasks), t, status) else old(tasks)
    {
      ok := *;
      if ok && t in tasks {
        tasks := tasks[t := tasks[t].(status := status)];
      }
    }

    method UpdateDeliveryTaskRetry(t: nat, retryCount: nat) returns (ok: bool)
      modifies this`tasks
      ensures tasks == if ok then SetRetryCount(old(tasks), t, retryCount) else old(tasks)
    {
      ok := *;
      if ok && t in tasks {
        tasks := tasks[t := tasks[t].(retryCount := retryCount)];
      }
    }

    /** There is no dead-letter table: the insert writes the status of the task row once more. */
    method InsertDeadLetter(t: nat) returns (ok: bool)
      modifies this`tasks
      ensures tasks == if ok then SetTaskStatus(old(tasks), t, TaskDeadLetter) else old(tasks)
    {
      ok := *;
      if ok && t in tasks {
        tasks := tasks[t := tasks[t].(status := TaskDeadLetter)];
      }
    }

    method GetDeliveryTaskCounts(n: nat) returns (r: Fetched<Counts>)
      ensures !r.NoRows?
      ensures r.Found? ==> r.value.total == |TasksOf(tasks, n)|
      ensures r.Found? ==> r.value.succeeded == |TasksWith(tasks, n, TaskSucceeded)|
      ensures r.Found? ==> r.value.deadLetter == |TasksWith(tasks, n, TaskDeadLetter)|
    {
      var failed: bool := *;
      if failed { return FetchFailed; }
      r := Found(Counts(|TasksOf(tasks, n)|, |TasksWith(tasks, n, TaskSucceeded)|,
          |TasksWith(tasks, n, TaskDeadLetter)|));
    }
  }

  class Broker {
    var deliveryQueue: multiset<nat>
    var retryQueue: multiset<RetryMessage>

    constructor ()
      ensures deliveryQueue == multiset{} && retryQueue == multiset{}
    {
      deliveryQueue, retryQueue := multiset{}, multiset{};
    }

    method PublishDelivery(t: nat) returns (ok: bool)
      modifies this`deliveryQueue
      ensures deliveryQueue == if ok then old(deliveryQueue) + multiset{t} else old(deliveryQueue)
    {
      ok := *;
      if ok { deliveryQueue := deliveryQueue + multiset{t}; }
    }

    method PublishDelayed(t: nat) returns (ok: bool)
      modifies this`retryQueue
      ensures retryQueue == if ok then old(retryQueue) + multiset{RetryMessage(t, true)} else old(retryQueue)
    {
      ok := *;
      if ok { retryQueue := retryQueue + multiset{RetryMessage(t, true)}; }
    }

    /** Hands a message of the delivery queue to a consumer. */
    method Deliver(t: nat)
      requires t in deliveryQueue
      modifies this`deliveryQueue
      ensures deliveryQueue == old(deliveryQueue) - multiset{t}
    {
      deliveryQueue := deliveryQueue - multiset{t};
    }

    /** Nack(false, false): the delivery queue's dead-letter exchange routes to the retry queue. */
    method Nack(t: nat)
      modifies this`retryQueue
      ensures retryQueue == old(retryQueue) + multiset{RetryMessage(t, false)}
    {
      retryQueue := retryQueue + multiset{RetryMessage(t, false)};
    }
  }

  ghost function Last(r: Run): State
    requires r.states != []
  {
    r.states[|r.states| - 1]
  }

  ghost predicate Extends(r: Run, r': Run) {
    r.states <= r'.states && r.actions <= r'.actions
  }

  lemma ExtendsItself(r: Run)
    ensures Extends(r, r)
  {
  }

  lemma ExtendsChain(a: Run, b: Run, c: Run, d: Run)
    requires Extends(a, b) && Extends(b, c) && Extends(c, d)
    ensures Extends(a, d)
  {
  }

  lemma StepExtends(cfg: Config, r: Run, a: Action)
    requires IsRun(cfg, r) && Enabled(cfg, Last(r), a)
    ensures IsRun(cfg, Run(r.states + [Next(cfg, Last(r), a)], r.actions + [a]))
  {
    var s' := Next(cfg, Last(r), a);
    var r' := Run(r.states + [s'], r.actions + [a]);
    hide Next, Enabled;
    forall i | 0 <= i < |r'.actions|
      ensures Enabled(cfg, r'.states[i], r'.actions[i]) && r'.states[i + 1] == Next(cfg, r'.states[i], r'.actions[i])
    {
      if i < |r.actions| {
        assert r'.states[i] == r.states[i] && r'.states[i + 1] == r.states[i + 1];
      }
    }
  }

  /** `r'` is `r` with one more step. */
  ghost predicate Appends(r: Run, r': Run, a: Action) {
    r.states <= r'.states && |r'.states| == |r.states| + 1 && r'.actions == r.actions + [a]
  }

  /** What worker `w` did with a message of `t`: it took it first, and settled it last. */
  ghost predicate Handled(r: Run, r': Run, w: nat, t: nat, ok: bool) {
    && |r.actions| < |r'.actions| && r'.actions[|r.actions|] == Take(w, t)
    && Settled(r', w, t, ok)
  }

  ghost predicate Settled(r: Run, w: nat, t: nat, ok: bool) {
    && r.actions != [] && |r.states| == |r.actions| + 1
    && var s, a := r.states[|r.actions| - 1], r.actions[|r.actions| - 1];
       a.Work? && a.ok && a.worker == w && w in s.workers && s.workers[w] == Busy(t, if ok then Ack else Nack)
  }

  /** The call of dispatcher `d` that returned an error: it failed, found no row, or met a duplicate. */
  ghost predicate Refuses(cfg: Config, s: State, a: Action, d: nat, n: nat) {
    && a.Dispatch? && a.dispatcher == d && Enabled(cfg, s, a) && s.dispatchers[d].notification == n
    && (!a.ok || MissesRow(s, d, n) || Duplicates(cfg, s, d, a.newTask))
  }

  predicate MissesRow(s: State, d: nat, n: nat)
    requires d in s.dispatchers && s.dispatchers[d].Dispatching?
  {
    (s.dispatchers[d].stage.Load? || s.dispatchers[d].stage.ReadEventType?) && n !in s.notifications
  }

  /** Such a call is among the steps that `r'` adds to `r`. */
  ghost predicate GaveUp(cfg: Config, r: Run, r': Run, d: nat, n: nat) {
    exists k :: |r.actions| <= k < |r'.actions| && k < |r'.states| && Refuses(cfg, r'.states[k], r'.actions[k], d, n)
  }

  lemma JustRefused(cfg: Config, r: Run, r': Run, r'': Run, a: Action, d: nat, n: nat)
    requires Extends(r, r') && Appends(r', r'', a) && |r'.states| == |r'.actions| + 1
    requires Refuses(cfg, Last(r'), a, d, n)
    ensures GaveUp(cfg, r, r'', d, n)
  {
    hide Refuses;
    var k := |r'.actions|;
    assert r''.states[k] == Last(r') && r''.actions[k] == a;
  }

  lemma GaveUpBetween(cfg: Config, r: Run, from: Run, to: Run, r': Run, d: nat, n: nat)
    requires Extends(r, from) && GaveUp(cfg, from, to, d, n) && Extends(to, r')
    ensures GaveUp(cfg, r, r', d, n)
  {
    hide Refuses;
    var k :| |from.actions| <= k < |to.actions| && k < |to.states| && Refuses(cfg, to.states[k], to.actions[k], d, n);
    assert r'.states[k] == to.states[k] && r'.actions[k] == to.actions[k];
  }

  lemma FirstStays(r: Run, from: Run, r': Run, a: Action)
    requires Appends(r, from, a) && Extends(from, r')
    ensures |r.actions| < |r'.actions| && r'.actions[|r.actions|] == a
  {
    assert from.actions[|r.actions|] == a;
  }

  /** The server: the shared clients, and a ghost record of who is where and of what happened. */
  class Server {
    const cfg: Config
    const db: Database
    const mq: Broker

    ghost var triggers: set<nat>
    ghost var dispatchers: map<nat, Dispatcher>
    ghost var workers: map<nat, Worker>
    ghost var history: History
    ghost var past: Run

    ghost function Now(): State
      reads this, db, mq
    {
      State(db.notifications, db.tasks, triggers, mq.deliveryQueue, mq.retryQueue, dispatchers, workers, history)
    }

    /** Everything that happened so far is a run of the protocol, and it led to the present state. */
    ghost predicate Valid()
      reads this, db, mq
    {
      IsRun(cfg, past) && Last(past) == Now()
    }

    constructor (cfg: Config, pool: set<nat>, consumers: set<nat>)
      ensures Valid() && fresh(db) && fresh(mq) && this.cfg == cfg
      ensures past.actions == [] && Init(Now())
      ensures workers.Keys == pool && dispatchers.Keys == consumers
    {
      this.cfg := cfg;
      db := new Database();
      mq := new Broker();
      triggers := {};
      dispatchers := map d | d in consumers :: Waiting;
      workers := map w | w in pool :: Idle;
      history := History({}, {}, multiset{}, map[], false, {});
      new;
      past := Run([Now()], []);
    }

    /** Records the call just made as one step of the protocol. */
    ghost method Record(a: Action)
      requires IsRun(cfg, past) && Enabled(cfg, Last(past), a)
      requires var s := Next(cfg, Last(past), a);
               && db.notifications == s.notifications && db.tasks == s.tasks
               && mq.deliveryQueue == s.deliveryQueue && mq.retryQueue == s.retryQueue
      modifies this
      ensures Valid() && Extends(old(past), past)
      ensures Now() == Next(cfg, Last(old(past)), a) && Appends(old(past), past, a)
    {
      hide Next, Enabled;
      var s := Next(cfg, Last(past), a);
      StepExtends(cfg, past, a);
      triggers, dispatchers, workers, history := s.triggers, s.dispatchers, s.workers, s.history;
      past := Run(past.states + [s], past.actions + [a]);
    }

    ghost method RecordTake(w: nat, t: nat)
      requires IsRun(cfg, past) && w in workers && workers[w].Idle? && t in Last(past).deliveryQueue
      requires var s := Last(past);
               && workers == s.workers && db.notifications == s.notifications && db.tasks == s.tasks
               && mq.retryQueue == s.retryQueue && mq.deliveryQueue == s.deliveryQueue - multiset{t}
      modifies this
      ensures Valid() && Extends(old(past), past)
      ensures w in workers && workers[w] == Busy(t, GetTask) && Appends(old(past), past, Take(w, t))
    {
      hide IsRun;
      Record(Take(w, t));
    }

    /** Records a call of worker `w`: the tables and queues must be what that call makes of them. */
    ghost method RecordCall(w: nat, ok: bool, built: bool, outcome: Outcome)
      requires IsRun(cfg, past) && WorkEnabled(Last(past), w)
      requires workers == Last(past).workers
      requires var s, t, stage := Last(past), workers[w].task, workers[w].stage;
               && (!ok ==> !stage.CallVendor? && !stage.Ack? && !stage.Nack?)
               && db.notifications == (if ok then NotificationsAfterWork(s.notifications, stage) else s.notifications)
               && db.tasks == (if ok then TasksAfterWork(s.tasks, t, stage) else s.tasks)
               && mq.deliveryQueue == s.deliveryQueue
               && mq.retryQueue == (if ok then RetryQueueAfterWork(s.retryQueue, t, stage) else s.retryQueue)
      modifies this
      ensures Valid() && Extends(old(past), past) && w in workers
      ensures Appends(old(past), past, Work(w, ok, built, outcome))
      ensures var s, t, stage := Last(old(past)), old(workers[w].task), old(workers[w].stage);
              workers[w] == if ok then WorkerAfter(cfg, s, t, stage, built, outcome)
                  else Busy(t, StageAfterFault(stage))
    {
      hide WorkerAfter, NotificationsAfterWork, TasksAfterWork, RetryQueueAfterWork, HistoryAfterWork, IsRun,
          StageAfterFault;
      Record(Work(w, ok, built, outcome));
    }

    /**
      Any number of steps of everyone else: other workers and dispatchers, the broker, the
      ingestion service. Callers learn only that what happened is a run.
     */
    method Interfere(ghost w: nat)
      requires Valid() && w in workers
      modifies this, db, mq
      ensures Valid() && Extends(old(past), past)
      ensures w in workers && workers[w] == old(workers[w])
    {
    }

    // ---------------------------------------------------------------- worker pool

    /** One delivery: take a message, process it, acknowledge it (`ok`) or reject it. */
    method HandleDelivery(w: nat, t: nat) returns (ok: bool)
      requires Valid() && w in workers && workers[w].Idle? && t in mq.deliveryQueue
      modifies this, db, mq
      ensures Valid() && Extends(old(past), past)
      ensures Handled(old(past), past, w, t, ok)
      ensures w in workers && workers[w].Idle?
    {
      hide IsRun, Extends, Settled, Appends;
      mq.Deliver(t);
      RecordTake(w, t);
      ghost var taken := past;
      ok := ProcessMessage(w, t);
      ghost var processed := past;
      Settle(w, t, ok);
      ExtendsChain(old(past), taken, processed, past);
      ExtendsChain(taken, processed, past, past) by { ExtendsItself(past); }
      FirstStays(old(past), taken, past, Take(w, t));
    }

    method Settle(w: nat, t: nat, ok: bool)
      requires Valid() && w in workers && workers[w] == Busy(t, if ok then Ack else Nack)
      modifies this, db, mq
      ensures Valid() && Extends(old(past), past) && Settled(past, w, t, ok)
      ensures w in workers && workers[w].Idle?
    {
      hide IsRun;
      Interfere(w);
      ghost var before := past;
      RunLength(cfg, before);
      if !ok { mq.Nack(t); }
      RecordCall(w, true, true, NetworkError);
      SettledLast(before, past, w, t, ok);
    }

    lemma SettledLast(r: Run, r': Run, w: nat, t: nat, ok: bool)
      requires |r.states| == |r.actions| + 1 && Appends(r, r', Work(w, true, true, NetworkError))
      requires w in Last(r).workers && Last(r).workers[w] == Busy(t, if ok then Ack else Nack)
      ensures Settled(r', w, t, ok)
    {
    }

    /** True asks the caller to acknowledge the message, false to reject it. */
    method ProcessMessage(w: nat, t: nat) returns (ok: bool)
      requires Valid() && w in workers && workers[w] == Busy(t, GetTask)
      modifies this, db, mq
      ensures Valid() && Extends(old(past), past)
      ensures w in workers && workers[w] == Busy(t, if ok then Ack else Nack)
    {
      hide IsRun, Extends;
      var fetched := FetchTask(w, t);
      ghost var found := past;
      if !fetched.Found? { return false; }
      var row := fetched.value;

      var built: bool := *;
      var present := FetchPayload(w, t, row, built);
      ghost var loaded := past;
      ExtendsChain(old(past), found, loaded, loaded) by { ExtendsItself(loaded); }
      if !present { return false; }

      if (row.vendor, row.eventType) !in cfg.maxAttempts {
        ok := HandleDeadLetter(w, t, row);
        ExtendsChain(old(past), found, loaded, past);
        return;
      }
      var max := cfg.maxAttempts[(row.vendor, row.eventType)];
      if !built {
        ok := RetryOrDeadLetter(w, t, row, max);
        ExtendsChain(old(past), found, loaded, past);
        return;
      }

      ok := Send(w, t, row, max);
      ExtendsChain(old(past), found, loaded, past);
    }

    method FetchTask(w: nat, t: nat) returns (r: Fetched<Task>)
      requires Valid() && w in workers && workers[w] == Busy(t, GetTask)
      modifies this, db, mq
      ensures Valid() && Extends(old(past), past)
      ensures w in workers && workers[w] == Busy(t, if r.Found? then GetPayload(r.value) else Nack)
    {
      hide IsRun;
      Interfere(w);
      r := db.GetDeliveryTask(t);
      RecordCall(w, !r.FetchFailed?, true, NetworkError);
    }

    method FetchPayload(w: nat, t: nat, row: Task, built: bool) returns (present: bool)
      requires Valid() && w in workers && workers[w] == Busy(t, GetPayload(row))
      modifies this, db, mq
      ensures Valid() && Extends(old(past), past)
      ensures w in workers && workers[w] == Busy(t, if present then AfterPayload(cfg, row, built) else Nack)
    {
      hide IsRun, AfterPayload;
      Interfere(w);
      var r := db.GetNotification(row.notification);
      present := r.Found?;
      RecordCall(w, !r.FetchFailed?, built, NetworkError);
    }

    /** Executes the request and judges the response. */
    method Send(w: nat, t: nat, row: Task, max: int) returns (ok: bool)
      requires Valid() && w in workers && workers[w] == Busy(t, CallVendor(row, max))
      modifies this, db, mq
      ensures Valid() && Extends(old(past), past)
      ensures w in workers && workers[w] == Busy(t, if ok then Ack else Nack)
    {
      hide IsRun;
      Interfere(w);
      var outcome: Outcome := *;
      RecordCall(w, true, true, outcome);
      if IsSuccess(outcome) {
        HandleDeliverySuccess(w, t, row);
        ok := true;
      } else if IsRetryable(outcome) {
        ok := RetryOrDeadLetter(w, t, row, max);
      } else {
        ok := HandleDeadLetter(w, t, row);
      }
    }

    method HandleDeliverySuccess(w: nat, t: nat, row: Task)
      requires Valid() && w in workers && workers[w] == Busy(t, MarkSucceeded(row))
      modifies this, db, mq
      ensures Valid() && Extends(old(past), past)
      ensures w in workers && workers[w] == Busy(t, Ack)
    {
      hide IsRun, Extends;
      var _ := MarkTask(w, t, row, TaskSucceeded);
      ghost var marked := past;
      ResolveNotificationStatus(w, t, row);
      ExtendsChain(old(past), marked, past, past) by { ExtendsItself(past); }
    }

    method RetryOrDeadLetter(w: nat, t: nat, row: Task, max: int) returns (ok: bool)
      requires Valid() && w in workers && workers[w] == Busy(t, Protocol.RetryOrDeadLetter(row, max))
      modifies this, db, mq
      ensures Valid() && Extends(old(past), past)
      ensures w in workers && workers[w] == Busy(t, if ok then Ack else Nack)
    {
      hide IsRun, Extends;
      var nextRetry := row.retryCount + 1;
      if nextRetry >= max {
        ok := HandleDeadLetter(w, t, row);
        return;
      }
      ok := SaveRetry(w, t, row, nextRetry);
      if !ok { return; }
      ghost var saved := past;
      ok := Delay(w, t, row);
      ExtendsChain(old(past), saved, past, past) by { ExtendsItself(past); }
    }

    method HandleDeadLetter(w: nat, t: nat, row: Task) returns (ok: bool)
      requires Valid() && w in workers && workers[w] == Busy(t, MarkDeadLetter(row))
      modifies this, db, mq
      ensures Valid() && Extends(old(past), past)
      ensures w in workers && workers[w] == Busy(t, if ok then Ack else Nack)
    {
      hide IsRun, Extends;
      ok := MarkTask(w, t, row, TaskDeadLetter);
      if !ok { return; }
      ghost var marked := past;
      ok := BuryTask(w, t, row);
      ghost var buried := past;
      ExtendsChain(old(past), marked, past, past) by { ExtendsItself(past); }
      if !ok { return; }
      ResolveNotificationStatus(w, t, row);
      ExtendsChain(old(past), buried, past, past) by { ExtendsItself(past); }
    }

    method ResolveNotificationStatus(w: nat, t: nat, row: Task)
      requires Valid() && w in workers && workers[w] == Busy(t, CountTasks(row))
      modifies this, db, mq
      ensures Valid() && Extends(old(past), past)
      ensures w in workers && workers[w] == Busy(t, Ack)
    {
      hide IsRun, Extends;
      var counts := CountRows(w, t, row);
      if !counts.Found? { return; }
      var Counts(total, succeeded, deadLetter) := counts.value;
      if succeeded + deadLetter < total { return; }

      var verdict;
      if deadLetter == 0 {
        verdict := Succeeded;
      } else if succeeded == 0 {
        verdict := Failed;
      } else {
        verdict := PartiallyFailed;
      }
      ghost var counted := past;
      WriteVerdict(w, t, row, verdict);
      ExtendsChain(old(past), counted, past, past) by { ExtendsItself(past); }
    }

    // The calls those handlers make, each preceded by everyone else's steps.

    method MarkTask(w: nat, t: nat, row: Task, status: TaskStatus) returns (ok: bool)
      requires Valid() && w in workers
      requires (status == TaskSucceeded && workers[w] == Busy(t, MarkSucceeded(row)))
               || (status == TaskDeadLetter && workers[w] == Busy(t, MarkDeadLetter(row)))
      modifies this, db, mq
      ensures Valid() && Extends(old(past), past)
      ensures w in workers
      ensures workers[w] == Busy(t, if status == TaskSucceeded then CountTasks(row)
          else if ok then InsertDeadLetter(row) else Nack)
    {
      hide IsRun;
      Interfere(w);
      ok := db.UpdateDeliveryTaskStatus(t, status);
      RecordCall(w, ok, true, NetworkError);
    }

    method BuryTask(w: nat, t: nat, row: Task) returns (ok: bool)
      requires Valid() && w in workers && workers[w] == Busy(t, InsertDeadLetter(row))
      modifies this, db, mq
      ensures Valid() && Extends(old(past), past)
      ensures w in workers && workers[w] == Busy(t, if ok then CountTasks(row) else Nack)
    {
      hide IsRun;
      Interfere(w);
      ok := db.InsertDeadLetter(t);
      RecordCall(w, ok, true, NetworkError);
    }

    method SaveRetry(w: nat, t: nat, row: Task, nextRetry: nat) returns (ok: bool)
      requires Valid() && w in workers && workers[w] == Busy(t, UpdateRetry(row)) && nextRetry == row.retryCount + 1
      modifies this, db, mq
      ensures Valid() && Extends(old(past), past)
      ensures w in workers && workers[w] == Busy(t, if ok then PublishDelayed(row) else Nack)
    {
      hide IsRun;
      Interfere(w);
      ok := db.UpdateDeliveryTaskRetry(t, nextRetry);
      RecordCall(w, ok, true, NetworkError);
    }

    method Delay(w: nat, t: nat, row: Task) returns (ok: bool)
      requires Valid() && w in workers && workers[w] == Busy(t, PublishDelayed(row))
      modifies this, db, mq
      ensures Valid() && Extends(old(past), past)
      ensures w in workers && workers[w] == Busy(t, if ok then Ack else Nack)
    {
      hide IsRun;
      Interfere(w);
      ok := mq.PublishDelayed(t);
      RecordCall(w, ok, true, NetworkError);
    }

    method CountRows(w: nat, t: nat, row: Task) returns (r: Fetched<Counts>)
      requires Valid() && w in workers && workers[w] == Busy(t, CountTasks(row))
      modifies this, db, mq
      ensures Valid() && Extends(old(past), past)
      ensures !r.NoRows? && w in workers
      ensures var verdict := if r.Found? then Verdict(r.value.total, r.value.succeeded, r.value.deadLetter)
          else Delivering;
              workers[w] == Busy(t, if verdict == Delivering then Ack else WriteStatus(row, verdict))
    {
      hide IsRun;
      Interfere(w);
      r := db.GetDeliveryTaskCounts(row.notification);
      RecordCall(w, r.Found?, true, NetworkError);
    }

    method WriteVerdict(w: nat, t: nat, row: Task, verdict: NotificationStatus)
      requires Valid() && w in workers && workers[w] == Busy(t, WriteStatus(row, verdict))
      modifies this, db, mq
      ensures Valid() && Extends(old(past), past)
      ensures w in workers && workers[w] == Busy(t, Ack)
    {
      hide IsRun;
      Interfere(w);
      var ok := db.UpdateNotificationStatus(row.notification, verdict);
      RecordCall(w, ok, true, NetworkError);
    }

    // ---------------------------------------------------------------- dispatcher

    /** Records a call of dispatcher `d`. */
    ghost method RecordDispatch(d: nat, ok: bool, newTask: nat)
      requires IsRun(cfg, past) && DispatchEnabled(cfg, Last(past), d, newTask)
      requires dispatchers == Last(past).dispatchers && history == Last(past).history
      requires var s, n, stage := Last(past), dispatchers[d].notification, dispatchers[d].stage;
               && db.notifications == (if ok then NotificationsAfterDispatch(s.notifications, n, stage)
                   else s.notifications)
               && db.tasks == (if ok then TasksAfterDispatch(cfg, s, n, stage, newTask) else s.tasks)
               && mq.deliveryQueue == (if ok &&
                   stage.PublishTasks? then s.deliveryQueue + multiset{stage.remaining[0]} else s.deliveryQueue)
               && mq.retryQueue == s.retryQueue
      modifies this
      ensures Valid() && Extends(old(past), past) && d in dispatchers
      ensures Appends(old(past), past, Action.Dispatch(d, ok, newTask))
      ensures var s, n, stage := Last(old(past)), old(dispatchers[d].notification), old(dispatchers[d].stage);
              && dispatchers[d] == (if ok then DispatcherAfter(cfg, s, n, stage, newTask) else Waiting)
              && old(history.published) <= history.published
              && (ok && stage.PublishTasks? ==> stage.remaining[0] in history.published)
    {
      hide DispatcherAfter, NotificationsAfterDispatch, TasksAfterDispatch, IsRun;
      Record(Action.Dispatch(d, ok, newTask));
    }

    /**
      Everyone else's steps, as dispatcher `d` sees them: a notification keeps its event type and
      does not become PENDING again, and what was published stays recorded.
     */
    method Yield(ghost d: nat, n: nat)
      requires Valid() && d in dispatchers && n in db.notifications
      modifies this, db, mq
      ensures Valid() && Extends(old(past), past)
      ensures d in dispatchers && dispatchers[d] == old(dispatchers[d])
      ensures n in db.notifications && db.notifications[n].eventType == old(db.notifications[n].eventType)
      ensures old(db.notifications[n].status) != Pending ==> db.notifications[n].status != Pending
      ensures old(history.published) <= history.published
    {
      hide IsRun, Extends;
      ghost var before := past;
      InterfereDispatcher(d);
      RunLength(cfg, before);
      RunLength(cfg, past);
      NotificationStays(cfg, before, past, n);
    }

    method InterfereDispatcher(ghost d: nat)
      requires Valid() && d in dispatchers
      modifies this, db, mq
      ensures Valid() && Extends(old(past), past)
      ensures d in dispatchers && dispatchers[d] == old(dispatchers[d])
    {
    }

    /**
      Processes one trigger. When no error is returned (`ok`), the notification has left PENDING:
      it was FAILED for want of rules, or its tasks were created and it went to DELIVERING, or
      another dispatcher had done so. An error is returned only for a failing call, a missing row or
      a duplicate task.
     */
    method Dispatch(d: nat, n: nat) returns (ok: bool)
      requires Valid() && d in dispatchers && dispatchers[d].Waiting? && n in triggers
      modifies this, db, mq
      ensures Valid() && Extends(old(past), past)
      ensures |old(past).actions| < |past.actions| && past.actions[|old(past).actions|] == Receive(d, n)
      ensures d in dispatchers && dispatchers[d].Waiting?
      ensures ok ==> n in db.notifications && db.notifications[n].status != Pending
      ensures !ok ==> GaveUp(cfg, old(past), past, d, n)
    {
      hide IsRun, Extends, GaveUp, Appends;
      Receives(d, n);
      ghost var received := past;
      ok := Route(d, n);
      ExtendsChain(old(past), received, past, past) by { ExtendsItself(past); }
      FirstStays(old(past), received, past, Receive(d, n));
      if !ok { GaveUpBetween(cfg, old(past), received, past, past, d, n) by { ExtendsItself(past); } }
    }

    ghost method Receives(d: nat, n: nat)
      requires Valid() && d in dispatchers && dispatchers[d].Waiting? && n in triggers
      modifies this
      ensures Valid() && Extends(old(past), past) && Appends(old(past), past, Receive(d, n))
      ensures d in dispatchers && dispatchers[d] == Dispatching(n, Load)
    {
      hide IsRun;
      Record(Receive(d, n));
    }

    /** The calls of `Dispatch`, once the trigger is in hand. */
    method Route(d: nat, n: nat) returns (ok: bool)
      requires Valid() && d in dispatchers && dispatchers[d] == Dispatching(n, Load)
      modifies this, db, mq
      ensures Valid() && Extends(old(past), past)
      ensures d in dispatchers && dispatchers[d].Waiting?
      ensures ok ==> n in db.notifications && db.notifications[n].status != Pending
      ensures !ok ==> GaveUp(cfg, old(past), past, d, n)
    {
      hide IsRun, Extends, GaveUp;
      var r := LoadNotification(d, n);
      if !r.Found? { return false; }
      if r.value.status != Pending { return true; }
      ghost var loaded := past;

      var vendors := Vendors(cfg, r.value.eventType);
      if vendors == [] {
        ok := MarkNotification(d, n, Failed);
      } else {
        ok := CreateAndPublish(d, n, vendors);
      }
      ExtendsChain(old(past), loaded, past, past) by { ExtendsItself(past); }
      if !ok { GaveUpBetween(cfg, old(past), loaded, past, past, d, n) by { ExtendsItself(past); } }
    }

    /** All tasks are created before the notification is marked, and marked before any is published. */
    method CreateAndPublish(d: nat, n: nat, vendors: seq<string>) returns (ok: bool)
      requires Valid() && d in dispatchers && dispatchers[d] == Dispatching(n, ReadEventType)
      requires n in db.notifications && vendors == Vendors(cfg, db.notifications[n].eventType) && vendors != []
      modifies this, db, mq
      ensures Valid() && Extends(old(past), past)
      ensures d in dispatchers && dispatchers[d].Waiting?
      ensures ok ==> n in db.notifications && db.notifications[n].status != Pending
      ensures !ok ==> GaveUp(cfg, old(past), past, d, n)
    {
      hide IsRun, Extends, GaveUp;
      ghost var start := past;
      ExtendsItself(start);
      var tasks;
      ok, tasks := CreateDeliveryTasks(d, n, vendors);
      ghost var made := past;
      if !ok { return; }

      ok := MarkNotification(d, n, Delivering);
      ghost var marked := past;
      ExtendsItself(marked);
      ExtendsChain(start, made, marked, marked);
      if !ok {
        GaveUpBetween(cfg, start, made, marked, marked, d, n);
        return;
      }

      ok := PublishDeliveries(d, n, tasks);
      ExtendsItself(past);
      ExtendsChain(start, marked, past, past);
      if !ok { GaveUpBetween(cfg, start, marked, past, past, d, n); }
    }

    method LoadNotification(d: nat, n: nat) returns (r: Fetched<Notification>)
      requires Valid() && d in dispatchers && dispatchers[d] == Dispatching(n, Load)
      modifies this, db, mq
      ensures Valid() && Extends(old(past), past)
      ensures r.Found? ==> n in db.notifications && db.notifications[n] == r.value
      ensures d in dispatchers
      ensures dispatchers[d] == if !r.Found? || r.value.status != Pending then Waiting
                                else if Vendors(cfg, r.value.eventType) == [] then Dispatching(n, MarkFailed)
                                else Dispatching(n, ReadEventType)
      ensures !r.Found? ==> GaveUp(cfg, old(past), past, d, n)
    {
      hide IsRun, GaveUp;
      InterfereDispatcher(d);
      ghost var before := past;
      RunLength(cfg, before);
      r := db.GetNotification(n);
      RecordDispatch(d, !r.FetchFailed?, 0);
      if !r.Found? { JustRefused(cfg, old(past), before, past, Action.Dispatch(d, !r.FetchFailed?, 0), d, n); }
    }

    /** `UpdateNotificationStatus` to FAILED or to DELIVERING, as the stage says. */
    method MarkNotification(d: nat, n: nat, status: NotificationStatus) returns (ok: bool)
      requires Valid() && d in dispatchers && n in db.notifications
      requires dispatchers[d].Dispatching? && dispatchers[d].notification == n
      requires || (dispatchers[d].stage.MarkFailed? && status == Failed)
               || (dispatchers[d].stage.MarkDelivering? && status == Delivering)
      modifies this, db, mq
      ensures Valid() && Extends(old(past), past)
      ensures d in dispatchers && n in db.notifications
      ensures dispatchers[d] == if ok && status == Delivering
                                then Dispatching(n, PublishTasks(old(dispatchers[d].stage.created))) else Waiting
      ensures ok ==> db.notifications[n].status == status
      ensures !ok ==> GaveUp(cfg, old(past), past, d, n)
    {
      hide IsRun, GaveUp;
      Yield(d, n);
      ghost var before := past;
      RunLength(cfg, before);
      ok := db.UpdateNotificationStatus(n, status);
      RecordDispatch(d, ok, 0);
      if !ok { JustRefused(cfg, old(past), before, past, Action.Dispatch(d, false, 0), d, n); }
    }

    method CreateDeliveryTasks(d: nat, n: nat, vendors: seq<string>) returns (ok: bool, tasks: seq<nat>)
      requires Valid() && d in dispatchers && dispatchers[d] == Dispatching(n, ReadEventType)
      requires n in db.notifications && vendors == Vendors(cfg, db.notifications[n].eventType) && vendors != []
      modifies this, db, mq
      ensures Valid() && Extends(old(past), past)
      ensures d in dispatchers && n in db.notifications
      ensures dispatchers[d] == if ok then Dispatching(n, MarkDelivering(tasks)) else Waiting
      ensures ok ==> |tasks| == |vendors|
      ensures !ok ==> GaveUp(cfg, old(past), past, d, n)
    {
      hide IsRun, Extends, GaveUp;
      tasks := [];
      ok := ReadEventTypeOf(d, n);
      if !ok { return; }
      for i := 0 to |vendors|
        invariant Valid() && Extends(old(past), past)
        invariant d in dispatchers && n in db.notifications && Vendors(cfg, db.notifications[n].eventType) == vendors
        invariant |tasks| == i
        invariant dispatchers[d] == Dispatching(n, if i < |vendors| then InsertTask(tasks) else MarkDelivering(tasks))
      {
        ghost var before := past;
        var id;
        ok, id := InsertNext(d, n, vendors, tasks);
        ExtendsItself(past);
        ExtendsChain(old(past), before, past, past);
        if !ok {
          GaveUpBetween(cfg, old(past), before, past, past, d, n);
          return;
        }
        tasks := tasks + [id];
      }
      ok := true;
    }

    method ReadEventTypeOf(d: nat, n: nat) returns (ok: bool)
      requires Valid() && d in dispatchers && dispatchers[d] == Dispatching(n, ReadEventType) && n in db.notifications
      modifies this, db, mq
      ensures Valid() && Extends(old(past), past)
      ensures d in dispatchers && n in db.notifications &&
          db.notifications[n].eventType == old(db.notifications[n].eventType)
      ensures dispatchers[d] == if ok then Dispatching(n, InsertTask([])) else Waiting
      ensures !ok ==> GaveUp(cfg, old(past), past, d, n)
    {
      hide IsRun, GaveUp;
      Yield(d, n);
      ghost var before := past;
      RunLength(cfg, before);
      var r := db.GetNotification(n);
      ok := r.Found?;
      RecordDispatch(d, ok, 0);
      if !ok { JustRefused(cfg, old(past), before, past, Action.Dispatch(d, false, 0), d, n); }
    }

    method InsertNext(d: nat, n: nat, vendors: seq<string>, created: seq<nat>) returns (ok: bool, id: nat)
      requires Valid() && d in dispatchers && dispatchers[d] == Dispatching(n, InsertTask(created))
      requires |created| < |vendors| && n in db.notifications && Vendors(cfg, db.notifications[n].eventType) == vendors
      modifies this, db, mq
      ensures Valid() && Extends(old(past), past)
      ensures d in dispatchers && n in db.notifications && Vendors(cfg, db.notifications[n].eventType) == vendors
      ensures dispatchers[d] ==
              if !ok then Waiting
              else Dispatching(n, if |created| + 1 < |vendors| then InsertTask(created + [id])
                  else MarkDelivering(created + [id]))
      ensures !ok ==> GaveUp(cfg, old(past), past, d, n)
    {
      hide IsRun, GaveUp;
      Yield(d, n);
      ghost var before := past;
      RunLength(cfg, before);
      assert VendorsOf(cfg, db.notifications, n) == vendors;
      id := db.NewId();
      var r := db.InsertDeliveryTask(id, n, vendors[|created|], db.notifications[n].eventType);
      ok := r.Created?;
      RecordDispatch(d, !r.InsertFailed?, id);
      if !ok { JustRefused(cfg, old(past), before, past, Action.Dispatch(d, !r.InsertFailed?, id), d, n); }
    }

    method PublishDeliveries(d: nat, n: nat, tasks: seq<nat>) returns (ok: bool)
      requires Valid() && d in dispatchers && dispatchers[d] == Dispatching(n, PublishTasks(tasks)) && tasks != []
      requires n in db.notifications && db.notifications[n].status != Pending
      modifies this, db, mq
      ensures Valid() && Extends(old(past), past)
      ensures d in dispatchers && dispatchers[d].Waiting?
      ensures n in db.notifications && db.notifications[n].status != Pending
      ensures ok ==> forall i :: 0 <= i < |tasks| ==> tasks[i] in history.published
      ensures !ok ==> GaveUp(cfg, old(past), past, d, n)
    {
      hide IsRun, Extends, GaveUp;
      ExtendsItself(past);
      for i := 0 to |tasks|
        invariant Valid() && Extends(old(past), past) && d in dispatchers
        invariant dispatchers[d] == if i < |tasks| then Dispatching(n, PublishTasks(tasks[i..])) else Waiting
        invariant n in db.notifications && db.notifications[n].status != Pending
        invariant forall j :: 0 <= j < i ==> tasks[j] in history.published
      {
        ghost var before := past;
        ok := PublishOne(d, n, tasks[i..]);
        ExtendsItself(past);
        ExtendsChain(old(past), before, past, past);
        if !ok {
          GaveUpBetween(cfg, old(past), before, past, past, d, n);
          return;
        }
        assert tasks[i..][1..] == tasks[i + 1..];
      }
      ok := true;
    }

    method PublishOne(d: nat, n: nat, remaining: seq<nat>) returns (ok: bool)
      requires Valid() && d in dispatchers && dispatchers[d] == Dispatching(n, PublishTasks(remaining)) &&
          remaining != []
      requires n in db.notifications && db.notifications[n].status != Pending
      modifies this, db, mq
      ensures Valid() && Extends(old(past), past)
      ensures d in dispatchers
      ensures dispatchers[d] == if ok && |remaining| > 1 then Dispatching(n, PublishTasks(remaining[1..])) else Waiting
      ensures n in db.notifications && db.notifications[n].status != Pending
      ensures old(history.published) <= history.published && (ok ==> remaining[0] in history.published)
      ensures !ok ==> GaveUp(cfg, old(past), past, d, n)
    {
      hide IsRun, GaveUp;
      Yield(d, n);
      ghost var before := past;
      RunLength(cfg, before);
      ok := mq.PublishDelivery(remaining[0]);
      RecordDispatch(d, ok, 0);
      if !ok { JustRefused(cfg, old(past), before, past, Action.Dispatch(d, false, 0), d, n); }
    }
  }

  /** The event type of a notification never changes, it never returns to PENDING, and nothing is unpublished. */
  lemma NotificationStays(cfg: Config, r: Run, r': Run, n: nat)
    requires IsRun(cfg, r) && IsRun(cfg, r') && Extends(r, r') && r.states != [] && r'.states != []
    requires n in Last(r).notifications
    ensures n in Last(r').notifications && Last(r').notifications[n].eventType == Last(r).notifications[n].eventType
    ensures Last(r).notifications[n].status != Pending ==> Last(r').notifications[n].status != Pending
    ensures Last(r).history.published <= Last(r').history.published
  {
    hide IsRun;
    assert r'.states[|r.states| - 1] == Last(r);
    StatusNeverGoesBack(cfg, r', |r.states| - 1, |r'.states| - 1, n);
    RunGrows(cfg, r', |r.states| - 1, |r'.states| - 1);
  }
}
