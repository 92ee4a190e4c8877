/**
  Tasks that nobody will finish: published ones without a live message or holder, and ones that were
  never published. Exactly which steps make them so, redelivered or not.
 */
module ProtocolSticking {
  import opened Protocol
  import opened ProtocolInvariants
  import opened ProtocolTokens
  import opened ProtocolStranding
  import opened ProtocolLife

  // ---------------------------------------------------------------- published and lost

  /** Published, still open, and nothing is on its way to finish it. */
  ghost predicate Stuck(s: State, t: nat) {
    t in s.history.published && t in s.tasks && s.tasks[t].status == TaskPending && !Live(s, t)
  }

  /** The worker is all that keeps the task alive. */
  ghost predicate LastHolder(s: State, w: nat, t: nat) {
    && w in s.workers && Active(s.workers[w], t) && !Queued(s, t)
    && forall v :: v in s.workers && Active(s.workers[v], t) ==> v == w
  }

  /** The step that loses an open task: a call of its last holder fails. */
  ghost predicate Loses(s: State, a: Action, t: nat) {
    && a.Work? && !a.ok && LastHolder(s, a.worker, t)
    && t in s.tasks && s.tasks[t].status == TaskPending
  }

  /** The step that brings a task back: a worker crashes with its message in hand. */
  predicate Revives(s: State, a: Action, t: nat) {
    a.WorkerCrash? && WorkEnabled(s, a.worker) && s.workers[a.worker].task == t
  }

  /** A step that leaves the task's row, its messages and its holders alone. */
  lemma SameStuck(s: State, s': State, t: nat)
    requires t in s.history.published ==> (t in s'.tasks <==> t in s.tasks)
    requires t in s.tasks && t in s'.tasks ==> (s'.tasks[t].status == TaskPending <==> s.tasks[t].status == TaskPending)
    requires t in s'.history.published <==> t in s.history.published
    requires Live(s', t) <==> Live(s, t)
    ensures Stuck(s', t) <==> Stuck(s, t)
  {
  }

  lemma SameLive(s: State, s': State, w: nat, t: nat)
    requires Queued(s', t) <==> Queued(s, t)
    requires w in s'.workers && s'.workers == s.workers[w := s'.workers[w]]
    requires !Active(s'.workers[w], t) && (w in s.workers ==> !Active(s.workers[w], t))
    ensures Live(s', t) <==> Live(s, t)
  {
    hide Queued, Active;
    if v :| v in s.workers && Active(s.workers[v], t) { assert v in s'.workers && Active(s'.workers[v], t); }
    if v :| v in s'.workers && Active(s'.workers[v], t) { assert v in s.workers && Active(s.workers[v], t); }
  }

  // ---------------------------------------------------------------- the worker's calls

  /** A worker without a hold on `t` neither writes its open row nor starts to hold it. */
  lemma BystanderSticksNothing(cfg: Config, s: State, w: nat, built: bool, outcome: Outcome, t: nat)
    requires WorkEnabled(s, w) && SnapshotOk(cfg, s, s.workers[w].task, s.workers[w].stage)
    requires !Active(s.workers[w], t)
    ensures Stuck(WorkNext(cfg, s, w, built, outcome), t) <==> Stuck(s, t)
  {
    var s' := WorkNext(cfg, s, w, built, outcome);
    BystanderKeepsMessages(cfg, s, w, built, outcome, t);
    BystanderKeepsRow(cfg, s, w, built, outcome, t);
    BystanderStays(cfg, s, w, built, outcome, t);
    hide WorkNext, SnapshotOk, Active, Queued, Live;
    SameLive(s, s', w, t);
    SameStuck(s, s', t);
  }

  lemma BystanderStays(cfg: Config, s: State, w: nat, built: bool, outcome: Outcome, t: nat)
    requires WorkEnabled(s, w) && !Active(s.workers[w], t)
    ensures var s' := WorkNext(cfg, s, w, built, outcome);
            w in s'.workers && s'.workers == s.workers[w := s'.workers[w]] && !Active(s'.workers[w], t)
  {
    hide CountVerdict, AfterPayload, AfterResponse;
  }

  lemma BystanderKeepsMessages(cfg: Config, s: State, w: nat, built: bool, outcome: Outcome, t: nat)
    requires WorkEnabled(s, w) && !Active(s.workers[w], t)
    ensures var s' := WorkNext(cfg, s, w, built, outcome);
            (Queued(s', t) <==> Queued(s, t)) && s'.history.published == s.history.published
  {
    hide WorkerAfter, TasksAfterWork;
  }

  lemma BystanderKeepsRow(cfg: Config, s: State, w: nat, built: bool, outcome: Outcome, t: nat)
    requires WorkEnabled(s, w) && SnapshotOk(cfg, s, s.workers[w].task, s.workers[w].stage)
    requires !Active(s.workers[w], t)
    ensures var s' := WorkNext(cfg, s, w, built, outcome);
            && (t in s'.tasks <==> t in s.tasks)
            && (t in s.tasks ==> (s'.tasks[t].status == TaskPending <==> s.tasks[t].status == TaskPending))
  {
    hide WorkerAfter, HistoryAfterWork, NotificationsAfterWork;
  }

  /** A holder that succeeds keeps the task alive or finishes it. */
  lemma HolderSticksNothing(cfg: Config, s: State, w: nat, built: bool, outcome: Outcome, t: nat)
    requires WorkEnabled(s, w) && SnapshotOk(cfg, s, s.workers[w].task, s.workers[w].stage) && RowsOk(cfg, s)
    requires Active(s.workers[w], t)
    ensures !Stuck(WorkNext(cfg, s, w, built, outcome), t) && !Stuck(s, t)
  {
    assert Live(s, t);
    WorkKeepsLife(cfg, s, w, built, outcome, t);
    hide WorkNext, SnapshotOk, RowsOk, Live;
  }

  lemma WorkSticksNothing(cfg: Config, s: State, w: nat, built: bool, outcome: Outcome, t: nat)
    requires Structure(cfg, s) && WorkEnabled(s, w)
    ensures Stuck(WorkNext(cfg, s, w, built, outcome), t) <==> Stuck(s, t)
  {
    WorkerIsOk(cfg, s, w);
    StructureMeans(cfg, s);
    hide Structure, WorkNext, SnapshotOk, RowsOk, Stuck;
    if Active(s.workers[w], t) {
      HolderSticksNothing(cfg, s, w, built, outcome, t);
    } else {
      BystanderSticksNothing(cfg, s, w, built, outcome, t);
    }
  }

  /** No failing call leaves its worker with a hold. */
  lemma FaultDrops(s: State, w: nat, t: nat)
    requires WorkEnabled(s, w)
    ensures var s' := WorkFault(s, w);
            && w in s'.workers && s'.workers == s.workers[w := s'.workers[w]] && !Active(s'.workers[w], t)
            && (Queued(s', t) <==> Queued(s, t)) && s'.tasks == s.tasks && s'.history.published == s.history.published
  {
  }

  lemma FaultSticksIff(cfg: Config, s: State, w: nat, t: nat)
    requires Structure(cfg, s) && WorkEnabled(s, w)
    ensures Stuck(WorkFault(s, w), t) <==>
              Stuck(s, t) || (LastHolder(s, w, t) && t in s.tasks && s.tasks[t].status == TaskPending)
  {
    var s' := WorkFault(s, w);
    FaultDrops(s, w, t);
    HeldIsPublished(cfg, s, w, t);
    hide Structure, WorkFault, Queued;
    if !Active(s.workers[w], t) {
      hide Active;
      SameLive(s, s', w, t);
    } else {
      assert Live(s, t);
      hide Active;
      if LastHolder(s, w, t) {
        assert forall v :: v in s'.workers && v != w ==> v in s.workers && s'.workers[v] == s.workers[v];
        assert !Live(s', t);
      } else if !Queued(s, t) {
        var v :| v in s.workers && Active(s.workers[v], t) && v != w;
        assert v in s'.workers && Active(s'.workers[v], t);
      }
    }
  }

  lemma HeldIsPublished(cfg: Config, s: State, w: nat, t: nat)
    requires Structure(cfg, s) && WorkEnabled(s, w)
    ensures Active(s.workers[w], t) ==> t in s.history.published
  {
  }

  // ---------------------------------------------------------------- everyone else's steps

  lemma CrashSticksIff(cfg: Config, s: State, w: nat, t: nat)
    requires Structure(cfg, s) && WorkEnabled(s, w)
    ensures Stuck(CrashNext(s, w), t) <==> Stuck(s, t) && s.workers[w].task != t
  {
    var s' := CrashNext(s, w);
    if s.workers[w].task == t {
      assert Queued(s', t);
    } else {
      assert !Active(s.workers[w], t) && !Active(s'.workers[w], t);
      assert Queued(s', t) <==> Queued(s, t);
      hide Structure, Active, Queued;
      SameLive(s, s', w, t);
    }
  }

  /** Taking and expiring move a live message; they lose and find none. */
  lemma TakeSticksNothing(s: State, w: nat, u: nat, t: nat)
    requires w in s.workers && s.workers[w].Idle? && u in s.deliveryQueue
    ensures Stuck(TakeNext(s, w, u), t) <==> Stuck(s, t)
  {
    var s' := TakeNext(s, w, u);
    if t == u {
      assert Active(s'.workers[w], t) && Queued(s, t);
    } else {
      assert Queued(s', t) <==> Queued(s, t);
      SameLive(s, s', w, t);
    }
  }

  lemma ExpireSticksNothing(s: State, u: nat, t: nat)
    requires RetryMessage(u, true) in s.retryQueue
    ensures Stuck(ExpireNext(s, u), t) <==> Stuck(s, t)
  {
    assert Queued(ExpireNext(s, u), t) <==> Queued(s, t);
    hide Active, Queued;
  }

  /** What a dispatcher publishes is live; the rows it inserts are not published. */
  lemma DispatchSticksNothing(cfg: Config, s: State, d: nat, newTask: nat, t: nat)
    requires Structure(cfg, s) && DispatchEnabled(cfg, s, d, newTask)
    ensures Stuck(DispatchNext(cfg, s, d, newTask), t) <==> Stuck(s, t)
  {
    var s', stage := DispatchNext(cfg, s, d, newTask), s.dispatchers[d].stage;
    DispatcherIsOk(cfg, s, d);
    PublishesFresh(cfg, s, d);
    StructureMeans(cfg, s);
    assert s.history.published <= s.tasks.Keys;
    DispatchQueuesOnly(cfg, s, d, newTask, t);
    hide Structure, DispatcherOk, DispatchedOk, DispatchNext, Queued, Active;
    if !(stage.PublishTasks? && stage.remaining[0] == t) { SameStuck(s, s', t); }
  }

  /** What a dispatcher's call means for the messages and the row of `t`. */
  lemma DispatchQueuesOnly(cfg: Config, s: State, d: nat, newTask: nat, t: nat)
    requires DispatchEnabled(cfg, s, d, newTask) && s.history.published <= s.tasks.Keys
    ensures var s', stage := DispatchNext(cfg, s, d, newTask), s.dispatchers[d].stage;
            && s'.workers == s.workers
            && (t in s.tasks ==> t in s'.tasks && s'.tasks[t] == s.tasks[t])
            && (if stage.PublishTasks? && stage.remaining[0] == t then Queued(s', t)
                else (Queued(s', t) <==> Queued(s, t)) && (t in s'.history.published <==> t in s.history.published))
  {
    hide DispatcherAfter, InsertSucceeds, NotificationsAfterDispatch;
  }

  lemma PublishesFresh(cfg: Config, s: State, d: nat)
    requires d in s.dispatchers && DispatcherOk(cfg, s, s.dispatchers[d])
    ensures s.dispatchers[d].Dispatching? && s.dispatchers[d].stage.PublishTasks? ==>
              s.dispatchers[d].stage.remaining != []
              && forall t :: t in s.dispatchers[d].stage.remaining ==> Fresh(s, s.dispatchers[d].notification, t)
  {
  }

  /** An open task loses its last holder by exactly one kind of step, and only a crash with its message revives it. */
  lemma StepSticksIff(cfg: Config, s: State, a: Action, t: nat)
    requires Structure(cfg, s) && Enabled(cfg, s, a)
    ensures Stuck(Next(cfg, s, a), t) <==> (Stuck(s, t) && !Revives(s, a, t)) || Loses(s, a, t)
  {
    hide Structure, Stuck, LastHolder, DispatchNext, WorkNext, WorkFault, CrashNext, TakeNext, ExpireNext;
    if a.Work? {
      if a.ok {
        WorkSticksNothing(cfg, s, a.worker, a.built, a.outcome, t);
      } else {
        FaultSticksIff(cfg, s, a.worker, t);
      }
    } else if a.WorkerCrash? {
      CrashSticksIff(cfg, s, a.worker, t);
    } else if a.Take? {
      TakeSticksNothing(s, a.worker, a.task, t);
    } else if a.Expire? {
      ExpireSticksNothing(s, a.task, t);
    } else if a.Dispatch? && a.ok {
      DispatchSticksNothing(cfg, s, a.dispatcher, a.newTask, t);
    } else {
      OthersStickNothing(cfg, s, a, t);
    }
  }

  lemma OthersStickNothing(cfg: Config, s: State, a: Action, t: nat)
    requires Enabled(cfg, s, a)
    requires a.Arrive? || a.PublishTrigger? || a.Receive? || a.DispatcherCrash? || (a.Dispatch? && !a.ok)
    ensures Stuck(Next(cfg, s, a), t) <==> Stuck(s, t)
  {
    var s' := Next(cfg, s, a);
    assert s'.tasks == s.tasks && s'.workers == s.workers && s'.history.published == s.history.published;
    assert s'.deliveryQueue == s.deliveryQueue && s'.retryQueue == s.retryQueue;
    hide Next, Enabled, Active;
  }

  /** For a task that was not redelivered, whoever holds it is its last holder. */
  lemma HolderIsLast(s: State, w: nat, t: nat)
    requires TokenOk(s, t) && w in s.workers
    ensures LastHolder(s, w, t) && t in s.tasks && s.tasks[t].status == TaskPending <==> Active(s.workers[w], t)
  {
    hide PastOk, QueuedOk;
  }
}
