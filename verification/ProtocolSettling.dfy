/**
  Whether anything still moves a notification towards its final status, and exactly which failing call
  ends that. A final status always covers terminal tasks only.
 */
module ProtocolSettling {
  import opened Protocol
  import opened ProtocolInvariants
  import opened ProtocolVerdict
  import opened ProtocolStranding
  import opened ProtocolAbandoning
  import opened ProtocolLife
  import opened ProtocolSending

  /** The worker resolves `n`, or holds one of its tasks and will come to resolve it. */
  predicate Concerns(tasks: map<nat, Task>, pc: Worker, n: nat) {
    || Resolving(pc, n)
    || (pc.Busy? && Active(pc, pc.task) && pc.task in tasks && tasks[pc.task].notification == n)
  }

  /** A live message of one of its tasks waits in a queue. */
  ghost predicate Awaited(s: State, n: nat) {
    exists t :: t in s.tasks && s.tasks[t].notification == n && Queued(s, t)
  }

  ghost predicate Pursued(s: State, n: nat) {
    Awaited(s, n) || exists w :: w in s.workers && Concerns(s.tasks, s.workers[w], n)
  }

  /** DELIVERING, all tasks terminal, and nothing is on its way to the status write. */
  ghost predicate Dead(s: State, n: nat) {
    Unfinished(s, n) && AllTerminal(s.tasks, n) && !Pursued(s, n)
  }

  /** The worker is all that pursues `n`. */
  ghost predicate LastHope(s: State, w: nat, n: nat) {
    && w in s.workers && Concerns(s.tasks, s.workers[w], n) && !Awaited(s, n)
    && forall v :: v in s.workers && Concerns(s.tasks, s.workers[v], n) ==> v == w
  }

  /** The failing call that ends the pursuit; after a failing success mark the worker still goes on to resolve. */
  ghost predicate Kills(s: State, a: Action, n: nat) {
    && a.Work? && !a.ok && WorkEnabled(s, a.worker) && !s.workers[a.worker].stage.MarkSucceeded?
    && Unfinished(s, n) && AllTerminal(s.tasks, n) && LastHope(s, a.worker, n)
  }

  /** A worker crashes with the message of one of its tasks in hand, which is delivered again. */
  predicate Rescues(s: State, a: Action, n: nat) {
    && a.WorkerCrash? && WorkEnabled(s, a.worker)
    && s.workers[a.worker].task in s.tasks && s.tasks[s.workers[a.worker].task].notification == n
  }

  // ---------------------------------------------------------------- frames

  lemma SamePursuers(s: State, s': State, w: nat, n: nat)
    requires Awaited(s', n) <==> Awaited(s, n)
    requires w in s'.workers && s'.workers == s.workers[w := s'.workers[w]]
    requires forall v :: v in s.workers ==>
      (Concerns(s'.tasks, s.workers[v], n) <==> Concerns(s.tasks, s.workers[v], n))
    requires !Concerns(s'.tasks, s'.workers[w], n) && (w in s.workers ==> !Concerns(s.tasks, s.workers[w], n))
    ensures Pursued(s', n) <==> Pursued(s, n)
  {
    hide Concerns, Awaited;
    if v :| v in s.workers && Concerns(s.tasks, s.workers[v], n) {
      assert v in s'.workers && Concerns(s'.tasks, s'.workers[v], n);
    }
    if v :| v in s'.workers && Concerns(s'.tasks, s'.workers[v], n) {
      assert v in s.workers && Concerns(s.tasks, s.workers[v], n);
    }
  }

  lemma SameAwaited(s: State, s': State, n: nat)
    requires forall t :: t in s.tasks <==> t in s'.tasks
    requires forall t :: t in s.tasks ==> s'.tasks[t].notification == s.tasks[t].notification
    requires forall t :: t in s.tasks && s.tasks[t].notification == n ==> (Queued(s', t) <==> Queued(s, t))
    ensures Awaited(s', n) <==> Awaited(s, n)
  {
    hide Queued;
    if t :| t in s.tasks && s.tasks[t].notification == n && Queued(s, t) { assert t in s'.tasks && Queued(s', t); }
    if t :| t in s'.tasks && s'.tasks[t].notification == n && Queued(s', t) { assert t in s.tasks && Queued(s, t); }
  }

  lemma SameConcern(ts: map<nat, Task>, ts': map<nat, Task>, pc: Worker, n: nat)
    requires ts'.Keys == ts.Keys && forall t :: t in ts ==> ts'[t].notification == ts[t].notification
    ensures Concerns(ts', pc, n) <==> Concerns(ts, pc, n)
  {
  }

  // ---------------------------------------------------------------- a worker's successful call

  /** The worker that pursues `n` goes on, puts its message into the retry queue, or has written the status. */
  lemma PursuerGoesOn(cfg: Config, s: State, w: nat, built: bool, outcome: Outcome, n: nat)
    requires WorkEnabled(s, w) && SnapshotOk(cfg, s, s.workers[w].task, s.workers[w].stage) && RowsOk(cfg, s)
    requires Concerns(s.tasks, s.workers[w], n) && Unfinished(s, n) && AllTerminal(s.tasks, n)
    ensures Pursued(WorkNext(cfg, s, w, built, outcome), n) || !Unfinished(WorkNext(cfg, s, w, built, outcome), n)
  {
    var s', t := WorkNext(cfg, s, w, built, outcome), s.workers[w].task;
    WorkTouches(cfg, s, w, built, outcome);
    WorkKeepsOwners(cfg, s, w, built, outcome);
    if Resolving(s.workers[w], n) {
      StayResolving(cfg, s, w, built, outcome, n);
      hide WorkNext, SnapshotOk, RowsOk, AllTerminal, Awaited;
    } else {
      HolderGoesOn(cfg, s, w, built, outcome);
      hide WorkNext, SnapshotOk, RowsOk, AllTerminal, Queued;
      if Queued(s', t) { assert Awaited(s', n); }
      hide Awaited;
      assert Concerns(s'.tasks, s'.workers[w], n) || Awaited(s', n);
    }
  }

  lemma WorkNeverKills(cfg: Config, s: State, w: nat, built: bool, outcome: Outcome, n: nat)
    requires WorkEnabled(s, w) && SnapshotOk(cfg, s, s.workers[w].task, s.workers[w].stage) && RowsOk(cfg, s)
    requires n in s.notifications && !Dead(s, n)
    ensures !Dead(WorkNext(cfg, s, w, built, outcome), n)
  {
    var s' := WorkNext(cfg, s, w, built, outcome);
    WriterResolves(cfg, s, w, built, outcome, n);
    WorkTouches(cfg, s, w, built, outcome);
    WorkKeepsOwners(cfg, s, w, built, outcome);
    StaysUnfinished(cfg, s, w, built, outcome, n);
    if SameOutcomes(s.tasks, s'.tasks, n) { AggregateSame(s.tasks, s'.tasks, n); }
    hide AllTerminal, SameOutcomes, SnapshotOk, RowsOk;
    if SameOutcomes(s.tasks, s'.tasks, n) && Unfinished(s, n) && AllTerminal(s.tasks, n) {
      PursuitGoesOn(cfg, s, w, built, outcome, n);
    } else if Resolving(s'.workers[w], n) {
      hide WorkNext;
      assert Concerns(s'.tasks, s'.workers[w], n);
    }
    hide WorkNext, Pursued;
  }

  lemma StaysUnfinished(cfg: Config, s: State, w: nat, built: bool, outcome: Outcome, n: nat)
    requires WorkEnabled(s, w) && SnapshotOk(cfg, s, s.workers[w].task, s.workers[w].stage) && n in s.notifications
    ensures Unfinished(WorkNext(cfg, s, w, built, outcome), n) ==> Unfinished(s, n)
  {
    hide WorkerAfter, TasksAfterWork, HistoryAfterWork, RetryQueueAfterWork;
  }

  lemma PursuitGoesOn(cfg: Config, s: State, w: nat, built: bool, outcome: Outcome, n: nat)
    requires WorkEnabled(s, w) && SnapshotOk(cfg, s, s.workers[w].task, s.workers[w].stage) && RowsOk(cfg, s)
    requires Pursued(s, n) && Unfinished(s, n) && AllTerminal(s.tasks, n)
    ensures Pursued(WorkNext(cfg, s, w, built, outcome), n) || !Unfinished(WorkNext(cfg, s, w, built, outcome), n)
  {
    var s' := WorkNext(cfg, s, w, built, outcome);
    WorkTouches(cfg, s, w, built, outcome);
    WorkKeepsOwners(cfg, s, w, built, outcome);
    if Concerns(s.tasks, s.workers[w], n) {
      PursuerGoesOn(cfg, s, w, built, outcome, n);
    } else {
      hide SnapshotOk, RowsOk, AllTerminal, Concerns, Queued;
      if Awaited(s, n) {
        var t :| t in s.tasks && s.tasks[t].notification == n && Queued(s, t);
        WorkKeepsQueued(cfg, s, w, built, outcome, t);
        assert t in s'.tasks;
      } else {
        var v :| v in s.workers && Concerns(s.tasks, s.workers[v], n);
        hide WorkNext;
        SameConcern(s.tasks, s'.tasks, s.workers[v], n);
        assert v in s'.workers && Concerns(s'.tasks, s'.workers[v], n);
      }
    }
  }

  /** A worker that does not pursue a dead notification leaves it as it is. */
  lemma WorkLeavesDead(cfg: Config, s: State, w: nat, built: bool, outcome: Outcome, n: nat)
    requires WorkEnabled(s, w) && SnapshotOk(cfg, s, s.workers[w].task, s.workers[w].stage) && Dead(s, n)
    ensures Dead(WorkNext(cfg, s, w, built, outcome), n)
  {
    var s', t := WorkNext(cfg, s, w, built, outcome), s.workers[w].task;
    assert !Concerns(s.tasks, s.workers[w], n);
    WorkTouches(cfg, s, w, built, outcome);
    WorkKeepsOwners(cfg, s, w, built, outcome);
    StrangerLeaves(cfg, s, w, built, outcome, n);
    AggregateSame(s.tasks, s'.tasks, n);
    hide WorkNext, SnapshotOk, AllTerminal, SameOutcomes, Queued;
    forall v | v in s.workers ensures Concerns(s'.tasks, s.workers[v], n) <==> Concerns(s.tasks, s.workers[v], n) {
      SameConcern(s.tasks, s'.tasks, s.workers[v], n);
    }
    SameAwaited(s, s', n);
    hide Concerns, Awaited;
    SamePursuers(s, s', w, n);
  }

  /** What a worker that does not pursue `n` leaves alone. */
  lemma StrangerLeaves(cfg: Config, s: State, w: nat, built: bool, outcome: Outcome, n: nat)
    requires WorkEnabled(s, w) && SnapshotOk(cfg, s, s.workers[w].task, s.workers[w].stage)
    requires !Concerns(s.tasks, s.workers[w], n) && n in s.notifications
    ensures var s' := WorkNext(cfg, s, w, built, outcome);
            && n in s'.notifications && s'.notifications[n] == s.notifications[n]
            && SameOutcomes(s.tasks, s'.tasks, n)
            && !Concerns(s'.tasks, s'.workers[w], n)
            && forall t :: t in s.tasks && s.tasks[t].notification == n ==> (Queued(s', t) <==> Queued(s, t))
  {
    if s.tasks[s.workers[w].task].notification == n {
      StrangerSettles(cfg, s, w, built, outcome, n);
    } else {
      StrangerWorksElsewhere(cfg, s, w, built, outcome, n);
    }
  }

  /** Holding a task of `n` without pursuing it, the worker is only about to acknowledge or reject. */
  lemma StrangerSettles(cfg: Config, s: State, w: nat, built: bool, outcome: Outcome, n: nat)
    requires WorkEnabled(s, w) && SnapshotOk(cfg, s, s.workers[w].task, s.workers[w].stage)
    requires !Concerns(s.tasks, s.workers[w], n) && s.tasks[s.workers[w].task].notification == n
    ensures var s' := WorkNext(cfg, s, w, built, outcome);
            && s'.notifications == s.notifications && s'.tasks == s.tasks
            && s'.workers[w] == Idle
            && forall t :: Queued(s', t) <==> Queued(s, t)
  {
    assert s.workers[w].stage.Ack? || s.workers[w].stage.Nack?;
    hide Concerns, SnapshotOk;
  }

  lemma StrangerWorksElsewhere(cfg: Config, s: State, w: nat, built: bool, outcome: Outcome, n: nat)
    requires WorkEnabled(s, w) && SnapshotOk(cfg, s, s.workers[w].task, s.workers[w].stage)
    requires s.tasks[s.workers[w].task].notification != n && n in s.notifications
    ensures var s' := WorkNext(cfg, s, w, built, outcome);
            && n in s'.notifications && s'.notifications[n] == s.notifications[n]
            && SameOutcomes(s.tasks, s'.tasks, n)
            && !Concerns(s'.tasks, s'.workers[w], n)
            && forall t :: t in s.tasks && s.tasks[t].notification == n ==> (Queued(s', t) <==> Queued(s, t))
  {
    ElsewhereRows(cfg, s, w, built, outcome, n);
    ElsewhereQueues(cfg, s, w, built, outcome, n);
    WorkKeepsSnapshot(cfg, s, w, built, outcome);
    WorkKeepsOwners(cfg, s, w, built, outcome);
    ElsewhereStays(cfg, s, w, built, outcome);
    hide WorkNext, SameOutcomes, Queued;
  }

  lemma ElsewhereStays(cfg: Config, s: State, w: nat, built: bool, outcome: Outcome)
    requires WorkEnabled(s, w)
    ensures var pc := WorkNext(cfg, s, w, built, outcome).workers[w];
            pc.Busy? ==> pc.task == s.workers[w].task
  {
    hide CountVerdict, AfterPayload, AfterResponse;
  }

  lemma ElsewhereRows(cfg: Config, s: State, w: nat, built: bool, outcome: Outcome, n: nat)
    requires WorkEnabled(s, w) && SnapshotOk(cfg, s, s.workers[w].task, s.workers[w].stage)
    requires s.tasks[s.workers[w].task].notification != n && n in s.notifications
    ensures var s' := WorkNext(cfg, s, w, built, outcome);
            && n in s'.notifications && s'.notifications[n] == s.notifications[n]
            && SameOutcomes(s.tasks, s'.tasks, n)
  {
    hide WorkerAfter, HistoryAfterWork, RetryQueueAfterWork;
  }

  lemma ElsewhereQueues(cfg: Config, s: State, w: nat, built: bool, outcome: Outcome, n: nat)
    requires WorkEnabled(s, w) && s.workers[w].task in s.tasks && s.tasks[s.workers[w].task].notification != n
    ensures var s' := WorkNext(cfg, s, w, built, outcome);
            forall t :: t in s.tasks && s.tasks[t].notification == n ==> (Queued(s', t) <==> Queued(s, t))
  {
    hide WorkerAfter, HistoryAfterWork, TasksAfterWork;
  }

  lemma WorkKeepsDead(cfg: Config, s: State, w: nat, built: bool, outcome: Outcome, n: nat)
    requires Structure(cfg, s) && WorkEnabled(s, w)
    ensures Dead(WorkNext(cfg, s, w, built, outcome), n) <==> Dead(s, n)
  {
    WorkerIsOk(cfg, s, w);
    StructureMeans(cfg, s);
    WorkTouches(cfg, s, w, built, outcome);
    hide Structure, SnapshotOk, RowsOk, WorkNext;
    if Dead(s, n) {
      WorkLeavesDead(cfg, s, w, built, outcome, n);
    } else if n in s.notifications {
      WorkNeverKills(cfg, s, w, built, outcome, n);
    }
    hide Pursued, AllTerminal;
  }

  // ---------------------------------------------------------------- a worker's failing call, and a crash

  /** A failing call drops the pursuit, unless it was the success mark. */
  lemma FaultLeavesConcern(cfg: Config, s: State, w: nat, n: nat)
    requires WorkEnabled(s, w) && SnapshotOk(cfg, s, s.workers[w].task, s.workers[w].stage)
    ensures var s' := WorkFault(s, w);
            && s'.tasks == s.tasks && s'.notifications == s.notifications
            && s'.deliveryQueue == s.deliveryQueue && s'.retryQueue == s.retryQueue
            && w in s'.workers && s'.workers == s.workers[w := s'.workers[w]]
            && (Concerns(s'.tasks, s'.workers[w], n) <==>
                  Concerns(s.tasks, s.workers[w], n) && s.workers[w].stage.MarkSucceeded?)
  {
  }

  lemma FaultKillsIff(cfg: Config, s: State, w: nat, n: nat)
    requires Structure(cfg, s) && WorkEnabled(s, w)
    ensures Dead(WorkFault(s, w), n) <==>
              || Dead(s, n)
              || (Unfinished(s, n) && AllTerminal(s.tasks, n)
                  && LastHope(s, w, n) && !s.workers[w].stage.MarkSucceeded?)
  {
    var s' := WorkFault(s, w);
    WorkerIsOk(cfg, s, w);
    FaultLeavesConcern(cfg, s, w, n);
    assert forall t :: Queued(s', t) <==> Queued(s, t);
    hide *;
    SameAwaited(s, s', n);
    FaultDropsPursuit(s, s', w, n);
    DeadMeans(s, n);
    DeadMeans(s', n);
    SameUnfinished(s, s', n);
  }

  lemma DeadMeans(s: State, n: nat)
    ensures Dead(s, n) <==> Unfinished(s, n) && AllTerminal(s.tasks, n) && !Pursued(s, n)
  {
  }

  lemma SameUnfinished(s: State, s': State, n: nat)
    requires s'.notifications == s.notifications
    ensures Unfinished(s', n) <==> Unfinished(s, n)
  {
  }

  /** What a failing call of a pursuer leaves of the pursuit. */
  lemma FaultDropsPursuit(s: State, s': State, w: nat, n: nat)
    requires WorkEnabled(s, w) && s'.tasks == s.tasks && (Awaited(s', n) <==> Awaited(s, n))
    requires w in s'.workers && s'.workers == s.workers[w := s'.workers[w]]
    requires Concerns(s'.tasks, s'.workers[w], n) <==>
               Concerns(s.tasks, s.workers[w], n) && s.workers[w].stage.MarkSucceeded?
    ensures Pursued(s', n) <==> Pursued(s, n) && !(LastHope(s, w, n) && !s.workers[w].stage.MarkSucceeded?)
  {
    hide Concerns, Awaited;
    if !Concerns(s.tasks, s.workers[w], n) {
      SamePursuers(s, s', w, n);
    } else if Concerns(s'.tasks, s'.workers[w], n) {
      assert Pursued(s', n) && Pursued(s, n);
    } else if LastHope(s, w, n) {
      assert forall v :: v in s'.workers ==> !Concerns(s'.tasks, s'.workers[v], n);
    } else if !Awaited(s, n) {
      var v :| v in s.workers && Concerns(s.tasks, s.workers[v], n) && v != w;
      assert v in s'.workers && Concerns(s'.tasks, s'.workers[v], n);
    }
  }

  lemma CrashRescuesIff(cfg: Config, s: State, w: nat, n: nat)
    requires Structure(cfg, s) && WorkEnabled(s, w)
    ensures s.workers[w].task in s.tasks
    ensures Dead(CrashNext(s, w), n) <==> Dead(s, n) && s.tasks[s.workers[w].task].notification != n
  {
    var s', t := CrashNext(s, w), s.workers[w].task;
    WorkerIsOk(cfg, s, w);
    hide Structure, AllTerminal;
    if s.tasks[t].notification == n {
      assert Queued(s', t) && Awaited(s', n);
    } else {
      assert !Concerns(s.tasks, s.workers[w], n);
      assert forall u :: u != t ==> (Queued(s', u) <==> Queued(s, u));
      hide Queued, Concerns;
      SameAwaited(s, s', n);
      assert !Concerns(s'.tasks, Idle, n) by { IdleConcernsNothing(s'.tasks, n); }
      hide Awaited;
      SamePursuers(s, s', w, n);
    }
  }

  lemma IdleConcernsNothing(tasks: map<nat, Task>, n: nat)
    ensures !Concerns(tasks, Idle, n)
  {
  }

  // ---------------------------------------------------------------- messages and dispatchers

  /** Taking a message of `n` turns one pursuit into another. */
  lemma TakeKeepsDead(cfg: Config, s: State, w: nat, u: nat, n: nat)
    requires PublishedOk(s) && w in s.workers && s.workers[w].Idle? && u in s.deliveryQueue
    ensures Dead(TakeNext(s, w, u), n) <==> Dead(s, n)
  {
    var s' := TakeNext(s, w, u);
    assert u in s.tasks;
    hide AllTerminal, PublishedOk;
    if s.tasks[u].notification == n {
      assert Queued(s, u) && Awaited(s, n);
      assert Concerns(s'.tasks, s'.workers[w], n);
    } else {
      assert forall t :: t != u ==> (Queued(s', t) <==> Queued(s, t));
      assert !Concerns(s'.tasks, s'.workers[w], n) && !Concerns(s.tasks, s.workers[w], n);
      hide Queued, Concerns;
      SameAwaited(s, s', n);
      hide Awaited;
      SamePursuers(s, s', w, n);
    }
  }

  lemma SameWorkersSamePursuit(s: State, s': State, n: nat)
    requires Awaited(s', n) <==> Awaited(s, n)
    requires s'.workers == s.workers && s'.tasks == s.tasks
    ensures Pursued(s', n) <==> Pursued(s, n)
  {
  }

  lemma OthersKeepDead(cfg: Config, s: State, a: Action, n: nat)
    requires Enabled(cfg, s, a)
    requires a.Arrive? || a.PublishTrigger? || a.Receive? || a.DispatcherCrash? || a.Expire? || (a.Dispatch? && !a.ok)
    ensures Dead(Next(cfg, s, a), n) <==> Dead(s, n)
  {
    var s' := Next(cfg, s, a);
    OthersKeepTasks(cfg, s, a);
    OthersKeepMessages(cfg, s, a);
    hide Next, Enabled, AllTerminal, Queued;
    SameAwaited(s, s', n);
    SameWorkersSamePursuit(s, s', n);
    hide Pursued;
  }

  lemma OthersKeepMessages(cfg: Config, s: State, a: Action)
    requires Enabled(cfg, s, a)
    requires a.Arrive? || a.PublishTrigger? || a.Receive? || a.DispatcherCrash? || a.Expire? || (a.Dispatch? && !a.ok)
    ensures var s' := Next(cfg, s, a);
            && s'.workers == s.workers
            && (forall t :: Queued(s', t) <==> Queued(s, t))
            && (forall n :: Unfinished(s', n) <==> Unfinished(s, n))
  {
  }

  /** A dispatcher marks and publishes only notifications with open tasks. */
  lemma DispatchKeepsDead(cfg: Config, s: State, d: nat, newTask: nat, n: nat)
    requires Structure(cfg, s) && DispatchEnabled(cfg, s, d, newTask)
    ensures Dead(DispatchNext(cfg, s, d, newTask), n) <==> Dead(s, n)
  {
    var s' := DispatchNext(cfg, s, d, newTask);
    DispatchMovesNoWorker(cfg, s, d, newTask);
    hide Structure, DispatchNext, AllTerminal, Pursued, DispatchEnabled;
    if Unfinished(s, n) && AllTerminal(s.tasks, n) {
      DispatchSparesTerminal(cfg, s, d, newTask, n);
      DispatchKeepsPursuit(cfg, s, d, newTask, n);
    } else {
      DispatchMakesNoneTerminal(cfg, s, d, newTask, n);
    }
  }

  lemma DispatchMovesNoWorker(cfg: Config, s: State, d: nat, newTask: nat)
    requires DispatchEnabled(cfg, s, d, newTask)
    ensures DispatchNext(cfg, s, d, newTask).workers == s.workers
  {
    hide DispatcherAfter, TasksAfterDispatch;
  }

  /** A dispatched notification with terminal tasks only: a dispatcher neither marks it nor adds to it. */
  lemma DispatchSparesTerminal(cfg: Config, s: State, d: nat, newTask: nat, n: nat)
    requires Structure(cfg, s) && DispatchEnabled(cfg, s, d, newTask) && Unfinished(s, n) && AllTerminal(s.tasks, n)
    ensures var s' := DispatchNext(cfg, s, d, newTask);
            && Unfinished(s', n) && AllTerminal(s'.tasks, n) && SameOutcomes(s.tasks, s'.tasks, n)
            && (s.dispatchers[d].stage.PublishTasks? ==> s.dispatchers[d].notification != n)
  {
    var s', m, stage := DispatchNext(cfg, s, d, newTask), s.dispatchers[d].notification, s.dispatchers[d].stage;
    DispatcherIsOk(cfg, s, d);
    PublishesOpen(cfg, s, d);
    DispatchSparesOutcomes(cfg, s, d, newTask);
    if stage.InsertTask? {
      if InsertSucceeds(cfg, s, m, stage.created) { InsertTargetsPending(cfg, s, d); }
    }
    assert SameOutcomes(s.tasks, s'.tasks, n);
    AggregateSame(s.tasks, s'.tasks, n);
    assert stage.MarkFailed? || stage.MarkDelivering? ==> m != n;
    hide Structure, DispatcherOk, DispatchedOk, DispatcherAfter, TasksAfterDispatch, SameOutcomes, InsertSucceeds;
  }

  lemma PublishesOpen(cfg: Config, s: State, d: nat)
    requires d in s.dispatchers && DispatcherOk(cfg, s, s.dispatchers[d])
    ensures s.dispatchers[d].Dispatching? && s.dispatchers[d].stage.PublishTasks? ==>
              !AllTerminal(s.tasks, s.dispatchers[d].notification)
  {
    if s.dispatchers[d].Dispatching? && s.dispatchers[d].stage.PublishTasks? {
      assert Fresh(s, s.dispatchers[d].notification, s.dispatchers[d].stage.remaining[0]);
    }
  }

  lemma DispatchKeepsPursuit(cfg: Config, s: State, d: nat, newTask: nat, n: nat)
    requires Structure(cfg, s) && DispatchEnabled(cfg, s, d, newTask) && Unfinished(s, n) && AllTerminal(s.tasks, n)
    ensures Pursued(DispatchNext(cfg, s, d, newTask), n) <==> Pursued(s, n)
  {
    var s', m := DispatchNext(cfg, s, d, newTask), s.dispatchers[d].notification;
    DispatchSparesTerminal(cfg, s, d, newTask, n);
    DispatchQueues(cfg, s, d, newTask, n);
    DispatchMovesNoWorker(cfg, s, d, newTask);
    hide Structure, DispatchNext, AllTerminal, Queued, DispatchEnabled;
    assert Awaited(s', n) <==> Awaited(s, n) by {
      if t :| t in s.tasks && s.tasks[t].notification == n && Queued(s, t) { assert t in s'.tasks && Queued(s', t); }
      if t :| t in s'.tasks && s'.tasks[t].notification == n && Queued(s', t) { assert t in s.tasks && Queued(s, t); }
    }
    hide Awaited;
    forall w | w in s.workers ensures Concerns(s'.tasks, s.workers[w], n) <==> Concerns(s.tasks, s.workers[w], n) {
      OutcomesKeepConcern(s.tasks, s'.tasks, s.workers[w], n);
    }
    hide Concerns, SameOutcomes;
    assert s'.workers == s.workers;
  }

  lemma OutcomesKeepConcern(ts: map<nat, Task>, ts': map<nat, Task>, pc: Worker, n: nat)
    requires SameOutcomes(ts, ts', n)
    ensures Concerns(ts', pc, n) <==> Concerns(ts, pc, n)
  {
  }

  /** A publish puts a message of its own notification into the queue. */
  lemma DispatchQueues(cfg: Config, s: State, d: nat, newTask: nat, n: nat)
    requires Structure(cfg, s) && DispatchEnabled(cfg, s, d, newTask)
    requires s.dispatchers[d].stage.PublishTasks? ==> s.dispatchers[d].notification != n
    ensures var s' := DispatchNext(cfg, s, d, newTask);
            forall t :: t in s.tasks && s.tasks[t].notification == n ==> (Queued(s', t) <==> Queued(s, t))
  {
    DispatcherIsOk(cfg, s, d);
    if s.dispatchers[d].stage.PublishTasks? {
      assert Fresh(s, s.dispatchers[d].notification, s.dispatchers[d].stage.remaining[0]);
    }
    hide Structure, DispatcherOk, DispatchedOk, DispatcherAfter, TasksAfterDispatch;
  }

  lemma DispatchMakesNoneTerminal(cfg: Config, s: State, d: nat, newTask: nat, n: nat)
    requires Structure(cfg, s) && DispatchEnabled(cfg, s, d, newTask) && !(Unfinished(s, n) && AllTerminal(s.tasks, n))
    ensures var s' := DispatchNext(cfg, s, d, newTask);
            !(Unfinished(s', n) && AllTerminal(s'.tasks, n))
  {
    var s', m, stage := DispatchNext(cfg, s, d, newTask), s.dispatchers[d].notification, s.dispatchers[d].stage;
    DispatcherIsOk(cfg, s, d);
    DispatchAddsNoNotification(cfg, s, d, newTask);
    if n in s.notifications {
      DeliveringStartsPending(cfg, s, d, newTask, n);
      DispatchSparesOutcomes(cfg, s, d, newTask);
      if SameOutcomes(s.tasks, s'.tasks, n) {
        AggregateSame(s.tasks, s'.tasks, n);
      } else {
        InsertTargetsPending(cfg, s, d);
      }
    }
    hide Structure, DispatcherOk, DispatchedOk, DispatcherAfter, AllTerminal, SameOutcomes, InsertSucceeds;
  }

  /** The pursuit of a notification ends with exactly one kind of failing call, and only a crash takes it up again. */
  lemma StepKillsIff(cfg: Config, s: State, a: Action, n: nat)
    requires Structure(cfg, s) && Enabled(cfg, s, a)
    ensures Dead(Next(cfg, s, a), n) <==> (Dead(s, n) && !Rescues(s, a, n)) || Kills(s, a, n)
  {
    hide RowsOk, FirstRowOk, UniqueTasks, PublishedOk, WorkersOk, DispatchersOk, DispatchedOk;
    hide Dead, LastHope, Unfinished, AllTerminal, DispatchNext, WorkNext, WorkFault, CrashNext, TakeNext;
    if a.Work? {
      if a.ok {
        WorkKeepsDead(cfg, s, a.worker, a.built, a.outcome, n);
      } else {
        FaultKillsIff(cfg, s, a.worker, n);
      }
    } else if a.WorkerCrash? {
      CrashRescuesIff(cfg, s, a.worker, n);
    } else if a.Take? {
      TakeKeepsDead(cfg, s, a.worker, a.task, n);
    } else if a.Dispatch? && a.ok {
      DispatchKeepsDead(cfg, s, a.dispatcher, a.newTask, n);
    } else {
      OthersKeepDead(cfg, s, a, n);
    }
  }

  // ---------------------------------------------------------------- final means terminal

  /** Verdicts about to be written, and final statuses, are those of terminal tasks only. */
  ghost predicate CountedOk(cfg: Config, s: State) {
    && (forall w :: w in s.workers && s.workers[w].Busy? && s.workers[w].stage.WriteStatus? ==>
          AllTerminal(s.tasks, s.workers[w].stage.row.notification))
    && (forall n ::
          n in s.notifications && Final(s.notifications[n].status) && VendorsOf(cfg, s.notifications, n) != [] ==>
            AllTerminal(s.tasks, n))
  }

  /** Once dispatched and all terminal, always all terminal. */
  lemma TerminalKept(cfg: Config, s: State, a: Action, n: nat)
    requires Structure(cfg, s) && Enabled(cfg, s, a) && PastPending(s, n) && AllTerminal(s.tasks, n)
    ensures AllTerminal(Next(cfg, s, a).tasks, n)
  {
    var s' := Next(cfg, s, a);
    StepGrows(cfg, s, a);
    if a.Dispatch? && a.ok {
      DispatcherIsOk(cfg, s, a.dispatcher);
      NewRowIsPending(cfg, s, a.dispatcher, a.newTask);
      DispatchAddsOne(cfg, s, a);
    } else {
      OthersAddNone(cfg, s, a);
    }
    hide Structure, Next, Enabled, DispatcherOk, DispatchedOk;
    forall t | t in s'.tasks && s'.tasks[t].notification == n ensures Terminal(s'.tasks[t].status) {
      if t in s.tasks { assert SameTask(s.tasks[t], s'.tasks[t]); }
    }
  }

  lemma DispatchAddsOne(cfg: Config, s: State, a: Action)
    requires Structure(cfg, s) && Enabled(cfg, s, a) && a.Dispatch? && a.ok
    ensures var s' := Next(cfg, s, a);
            forall t :: t in s'.tasks && t !in s.tasks ==> !PastPending(s, s'.tasks[t].notification)
  {
    hide DispatcherAfter;
    if s.dispatchers[a.dispatcher].stage.InsertTask? {
      if InsertSucceeds(cfg, s, s.dispatchers[a.dispatcher].notification, s.dispatchers[a.dispatcher].stage.created) {
        InsertTargetsPending(cfg, s, a.dispatcher);
      }
    }
    hide Structure;
  }

  lemma OthersAddNone(cfg: Config, s: State, a: Action)
    requires Enabled(cfg, s, a) && !(a.Dispatch? && a.ok)
    ensures Next(cfg, s, a).tasks.Keys == s.tasks.Keys
  {
    if a.Work? && a.ok {
      WorkTouches(cfg, s, a.worker, a.built, a.outcome);
      hide WorkNext;
    } else {
      OthersKeepTasks(cfg, s, a);
      hide Next, Enabled;
    }
  }
}
