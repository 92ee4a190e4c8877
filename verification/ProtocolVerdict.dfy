/**
  The status of a notification against the outcomes of its tasks. While none of its own tasks was
  redelivered, what is written is right and stays right.
 */
module ProtocolVerdict {
  import opened Protocol
  import opened ProtocolInvariants
  import opened ProtocolTokens

  // ---------------------------------------------------------------- counting is quantifying

  /** The three counts of the SQL query decide exactly what the task rows add up to. */
  lemma CountingAggregates(tasks: map<nat, Task>, n: nat)
    ensures CountVerdict(tasks, n) == Aggregate(tasks, n)
  {
    var all := TasksOf(tasks, n);
    var good := TasksWith(tasks, n, TaskSucceeded);
    var dead := TasksWith(tasks, n, TaskDeadLetter);
    assert good !! dead && good + dead <= all;
    assert |good + dead| == |good| + |dead|;
    var rest := all - (good + dead);
    assert all == (good + dead) + rest;
    assert |all| == |good + dead| + |rest|;
    assert AllTerminal(tasks, n) <==> rest == {} by {
      if rest == {} {
        forall t | t in tasks && tasks[t].notification == n ensures Terminal(tasks[t].status) {
          assert t in all && t in good + dead;
        }
      } else {
        var t :| t in rest;
        assert t in all && !Terminal(tasks[t].status);
      }
    }
    assert Some(tasks, n, TaskSucceeded) <==> good != {} by {
      if t :| t in good {}
      if Some(tasks, n, TaskSucceeded) {
        var t :| t in tasks && tasks[t].notification == n && tasks[t].status == TaskSucceeded;
        assert t in good;
      }
    }
    assert Some(tasks, n, TaskDeadLetter) <==> dead != {} by {
      if t :| t in dead {}
      if Some(tasks, n, TaskDeadLetter) {
        var t :| t in tasks && tasks[t].notification == n && tasks[t].status == TaskDeadLetter;
        assert t in dead;
      }
    }
  }

  // ---------------------------------------------------------------- written verdicts are right

  /** No message of any task of `n` was redelivered. */
  ghost predicate Untouched(s: State, n: nat) {
    forall t :: t in s.history.redelivered && t in s.tasks ==> s.tasks[t].notification != n
  }

  ghost predicate VerdictOk(s: State, pc: Worker) {
    pc.Busy? && pc.stage.WriteStatus? && Untouched(s, pc.stage.row.notification) ==>
      pc.stage.verdict == Aggregate(s.tasks, pc.stage.row.notification)
  }

  ghost predicate StatusOk(cfg: Config, s: State, n: nat) {
    n in s.notifications && Final(s.notifications[n].status) && VendorsOf(cfg, s.notifications, n) != [] &&
        Untouched(s, n) ==>
      s.notifications[n].status == Aggregate(s.tasks, n)
  }

  /** A notification untouched after a step was untouched before it. */
  ghost predicate UntouchedBefore(s: State, s': State) {
    forall n :: Untouched(s', n) ==> Untouched(s, n)
  }

  lemma GrowingTouches(s: State, s': State)
    requires TasksGrow(s, s') && s.history.redelivered <= s'.history.redelivered
    ensures UntouchedBefore(s, s')
  {
    forall n | Untouched(s', n) ensures Untouched(s, n) {
      forall t | t in s.history.redelivered && t in s.tasks ensures s.tasks[t].notification != n {
        assert SameTask(s.tasks[t], s'.tasks[t]);
      }
    }
  }

  ghost predicate Verdicts(cfg: Config, s: State) {
    && (forall w :: w in s.workers ==> VerdictOk(s, s.workers[w]))
    && (forall n :: n in s.notifications ==> StatusOk(cfg, s, n))
  }

  ghost predicate SameOutcomes(ts: map<nat, Task>, ts': map<nat, Task>, n: nat) {
    && (forall t :: t in ts && ts[t].notification == n ==>
          t in ts' && ts'[t].notification == n && ts'[t].status == ts[t].status)
    && (forall t :: t in ts' && ts'[t].notification == n ==> t in ts && ts[t].notification == n)
  }

  lemma AggregateSame(ts: map<nat, Task>, ts': map<nat, Task>, n: nat)
    requires SameOutcomes(ts, ts', n)
    ensures Aggregate(ts', n) == Aggregate(ts, n) && (AllTerminal(ts', n) <==> AllTerminal(ts, n))
  {
    assert AllTerminal(ts', n) <==> AllTerminal(ts, n);
    assert Some(ts', n, TaskDeadLetter) <==> Some(ts, n, TaskDeadLetter);
    assert Some(ts', n, TaskSucceeded) <==> Some(ts, n, TaskSucceeded);
  }

  /** A notification whose outcomes a step may change is not final and nobody is about to make it final. */
  lemma VerdictsFrame(cfg: Config, s: State, s': State)
    requires Verdicts(cfg, s) && UntouchedBefore(s, s')
    requires forall n :: n in s'.notifications && Untouched(s', n) ==>
               || (n in s.notifications && SameOutcomes(s.tasks, s'.tasks, n) &&
                   s'.notifications[n] == s.notifications[n])
               || !Final(s'.notifications[n].status) || VendorsOf(cfg, s'.notifications, n) == []
               || s'.notifications[n].status == Aggregate(s'.tasks, n)
    requires forall w :: w in s'.workers && Undecided(s', s'.workers[w]) ==>
               || (w in s.workers && s'.workers[w] == s.workers[w] &&
                   SameOutcomes(s.tasks, s'.tasks, s'.workers[w].stage.row.notification))
               || VerdictOk(s', s'.workers[w])
    ensures Verdicts(cfg, s')
  {
    hide Untouched, Aggregate;
    forall n | n in s'.notifications ensures StatusOk(cfg, s', n) {
      if Untouched(s', n) && n in s.notifications && SameOutcomes(s.tasks, s'.tasks, n) &&
          s'.notifications[n] == s.notifications[n] {
        assert StatusOk(cfg, s, n);
        AggregateSame(s.tasks, s'.tasks, n);
      }
    }
    forall w | w in s'.workers ensures VerdictOk(s', s'.workers[w]) {
      if Undecided(s', s'.workers[w]) && w in s.workers && s'.workers[w] == s.workers[w]
         && SameOutcomes(s.tasks, s'.tasks, s'.workers[w].stage.row.notification) {
        assert VerdictOk(s, s.workers[w]);
        AggregateSame(s.tasks, s'.tasks, s.workers[w].stage.row.notification);
      }
    }
  }

  /** The worker is about to write the status of an untouched notification. */
  ghost predicate Undecided(s: State, pc: Worker) {
    pc.Busy? && pc.stage.WriteStatus? && Untouched(s, pc.stage.row.notification)
  }

  /** Only the holder of a pending task's token changes an outcome. */
  lemma WorkChangesOutcome(cfg: Config, s: State, w: nat, built: bool, outcome: Outcome, n: nat)
    requires WorkEnabled(s, w) && s.workers[w].task in s.tasks
    requires s.tasks[s.workers[w].task].notification == n ==> TokenOk(s, s.workers[w].task)
    ensures var s', t := WorkNext(cfg, s, w, built, outcome), s.workers[w].task;
            || SameOutcomes(s.tasks, s'.tasks, n)
            || (s.tasks[t].notification == n && s.tasks[t].status == TaskPending && !s.workers[w].stage.WriteStatus?
                && s'.workers[w].Busy? && Resolving(s'.workers[w], s.workers[w].stage.row.notification))
  {
    hide CountVerdict, AfterPayload, AfterResponse, PastOk, QueuedOk, NotificationsAfterWork, RetryQueueAfterWork,
        HistoryAfterWork;
    if s.tasks[s.workers[w].task].notification == n {
      assert Active(s.workers[w], s.workers[w].task) ==> s.tasks[s.workers[w].task].status == TaskPending;
      assert InsertOk(s, s.workers[w].task, s.workers[w]);
    }
    hide TokenOk, HolderOk;
  }

  /** The status a worker writes, and the verdict it reaches, are the aggregate of an untouched notification. */
  lemma WorkDecides(cfg: Config, s: State, w: nat, built: bool, outcome: Outcome)
    requires WorkEnabled(s, w) && VerdictOk(s, s.workers[w])
    ensures var s' := WorkNext(cfg, s, w, built, outcome);
            && VerdictOk(s', s'.workers[w])
            && (s.workers[w].stage.WriteStatus? || s'.notifications == s.notifications)
            && s'.notifications.Keys == s.notifications.Keys
            && forall n :: n in s.notifications && s'.notifications[n].status != s.notifications[n].status ==>
                 && s.workers[w].stage.WriteStatus?
                 && (Untouched(s', n) ==> s'.notifications[n].status == Aggregate(s'.tasks, n))
  {
    hide Aggregate, CountVerdict;
    var s' := WorkNext(cfg, s, w, built, outcome);
    if s.workers[w].stage.CountTasks? { CountingAggregates(s.tasks, s.workers[w].stage.row.notification); }
    if s.workers[w].stage.WriteStatus? {
      assert s'.tasks == s.tasks && s'.history == s.history;
      assert Untouched(s', s.workers[w].stage.row.notification) ==> Untouched(s, s.workers[w].stage.row.notification);
    }
    hide Untouched;
  }

  lemma WorkSparesHistory(cfg: Config, s: State, w: nat, built: bool, outcome: Outcome)
    requires WorkEnabled(s, w)
    ensures WorkNext(cfg, s, w, built, outcome).history.redelivered == s.history.redelivered
  {
    hide WorkerAfter, TasksAfterWork;
  }

  lemma WorkKeepsVerdicts(cfg: Config, s: State, w: nat, built: bool, outcome: Outcome)
    requires WorkEnabled(s, w) && Verdicts(cfg, s) && WorkersOk(cfg, s) && Tokens(s)
    requires Grows(s, WorkNext(cfg, s, w, built, outcome))
    ensures Verdicts(cfg, WorkNext(cfg, s, w, built, outcome))
  {
    var s', t := WorkNext(cfg, s, w, built, outcome), s.workers[w].task;
    WorkDecides(cfg, s, w, built, outcome);
    WorkSparesHistory(cfg, s, w, built, outcome);
    GrowingTouches(s, s');
    assert s'.workers == s.workers[w := s'.workers[w]];
    assert t in s.tasks;
    forall n | Untouched(s', n) ensures Spared(s, s', n) {
      assert s.tasks[t].notification == n ==> t !in s.history.redelivered;
      WorkChangesOutcome(cfg, s, w, built, outcome, n);
      if !SameOutcomes(s.tasks, s'.tasks, n) {
        assert t in s.tasks && s.tasks[t].notification == n && !Terminal(s.tasks[t].status);
      }
    }
    hide WorkNext, Tokens, TokenOk;
    WorkVerdictsStand(cfg, s, s', w);
  }

  /** The step changes no outcome of `n`, or `n` is still open and no status changes. */
  ghost predicate Spared(s: State, s': State, n: nat) {
    SameOutcomes(s.tasks, s'.tasks, n) || (Aggregate(s.tasks, n) == Delivering && s'.notifications == s.notifications)
  }

  lemma WorkVerdictsStand(cfg: Config, s: State, s': State, w: nat)
    requires Verdicts(cfg, s) && WorkersOk(cfg, s) && NotificationsGrow(s, s') && UntouchedBefore(s, s')
    requires s'.notifications.Keys == s.notifications.Keys
    requires w in s'.workers && s'.workers == s.workers[w := s'.workers[w]] && VerdictOk(s', s'.workers[w])
    requires forall n :: n in s.notifications && Untouched(s', n) ==>
               || s'.notifications[n].status == s.notifications[n].status
               || s'.notifications[n].status == Aggregate(s'.tasks, n)
    requires forall n :: Untouched(s', n) ==> Spared(s, s', n)
    ensures Verdicts(cfg, s')
  {
    hide Aggregate, SameOutcomes, Untouched;
    forall n | n in s'.notifications && Untouched(s', n)
      ensures || (SameOutcomes(s.tasks, s'.tasks, n) && s'.notifications[n] == s.notifications[n])
              || !Final(s'.notifications[n].status) || VendorsOf(cfg, s'.notifications, n) == []
              || s'.notifications[n].status == Aggregate(s'.tasks, n)
    {
      assert StatusOk(cfg, s, n) && Spared(s, s', n);
    }
    forall v | v in s'.workers && v != w && Undecided(s', s'.workers[v])
      ensures SameOutcomes(s.tasks, s'.tasks, s'.workers[v].stage.row.notification)
    {
      assert VerdictOk(s, s.workers[v]) && SnapshotOk(cfg, s, s.workers[v].task, s.workers[v].stage);
      assert Spared(s, s', s'.workers[v].stage.row.notification);
    }
    VerdictsFrame(cfg, s, s');
  }

  lemma InsertTargetsPending(cfg: Config, s: State, d: nat)
    requires Structure(cfg, s) && d in s.dispatchers && s.dispatchers[d].Dispatching? &&
        s.dispatchers[d].stage.InsertTask?
    requires |s.dispatchers[d].stage.created| < |VendorsOf(cfg, s.notifications, s.dispatchers[d].notification)|
    requires InsertSucceeds(cfg, s, s.dispatchers[d].notification, s.dispatchers[d].stage.created)
    ensures s.dispatchers[d].notification in s.notifications
    ensures s.notifications[s.dispatchers[d].notification].status == Pending
  {
    assert DispatcherOk(cfg, s, s.dispatchers[d]);
    hide DispatchersOk, RowsOk, FirstRowOk, UniqueTasks, WorkersOk;
    InsertMeansPending(cfg, s, s.dispatchers[d].notification);
  }

  /** A worker only ever writes the status of a notification that was dispatched. */
  lemma WriterTargetsDispatched(cfg: Config, s: State)
    requires PublishedOk(s) && WorkersOk(cfg, s)
    ensures forall v :: v in s.workers && s.workers[v].Busy? && s.workers[v].stage.WriteStatus? ==>
              s.workers[v].stage.row.notification in s.notifications
              && s.notifications[s.workers[v].stage.row.notification].status != Pending
  {
    forall v | v in s.workers && s.workers[v].Busy? && s.workers[v].stage.WriteStatus?
      ensures s.workers[v].stage.row.notification in s.notifications
      ensures s.notifications[s.workers[v].stage.row.notification].status != Pending
    {
      assert SnapshotOk(cfg, s, s.workers[v].task, s.workers[v].stage) && s.workers[v].task in s.history.published;
    }
  }

  lemma DispatchKeepsVerdicts(cfg: Config, s: State, d: nat, newTask: nat)
    requires DispatchEnabled(cfg, s, d, newTask) && Structure(cfg, s) && Verdicts(cfg, s)
    ensures Verdicts(cfg, DispatchNext(cfg, s, d, newTask))
  {
    var s' := DispatchNext(cfg, s, d, newTask);
    var n, stage := s.dispatchers[d].notification, s.dispatchers[d].stage;
    DispatcherIsOk(cfg, s, d);
    WriterTargetsDispatched(cfg, s);
    assert stage.MarkFailed? ==> VendorsOf(cfg, s.notifications, n) == [];
    if stage.InsertTask? {
      if InsertSucceeds(cfg, s, n, stage.created) { InsertTargetsPending(cfg, s, d); }
    }
    DispatchGrows(cfg, s, d, newTask);
    assert s'.history.redelivered == s.history.redelivered;
    GrowingTouches(s, s');
    hide Structure, DispatcherOk, Verdicts, Aggregate, DispatcherAfter, InsertSucceeds, Untouched, Grows;
    DispatchSparesOutcomes(cfg, s, d, newTask);
    hide SameOutcomes;
    VerdictsFrame(cfg, s, s');
  }

  /** A dispatcher changes the outcomes only of a notification that is still PENDING. */
  lemma DispatchSparesOutcomes(cfg: Config, s: State, d: nat, newTask: nat)
    requires DispatchEnabled(cfg, s, d, newTask)
    ensures var s' := DispatchNext(cfg, s, d, newTask);
            forall n :: SameOutcomes(s.tasks, s'.tasks, n)
              || (n == s.dispatchers[d].notification && s.dispatchers[d].stage.InsertTask?
                  && InsertSucceeds(cfg, s, n, s.dispatchers[d].stage.created))
  {
    hide DispatcherAfter;
  }
}
