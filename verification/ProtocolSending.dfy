/**
  Tasks of a dispatched notification that were never published and never will be: exactly which steps
  leave them behind.
 */
module ProtocolSending {
  import opened Protocol
  import opened ProtocolInvariants
  import opened ProtocolStranding
  import opened ProtocolAbandoning
  import opened ProtocolLife

  predicate PastPending(s: State, n: nat) {
    n in s.notifications && s.notifications[n].status != Pending
  }

  ghost predicate Sending(s: State, n: nat, t: nat) {
    exists d :: d in s.dispatchers && Publishing(s.dispatchers[d], n, t)
  }

  /** The notification was dispatched, the task was not published, and no dispatcher is going to. */
  ghost predicate Unsent(s: State, t: nat) {
    && t in s.tasks && t !in s.history.published
    && PastPending(s, s.tasks[t].notification) && !Sending(s, s.tasks[t].notification, t)
  }

  /** The step that leaves the task behind: its dispatcher's publish fails, or the dispatcher crashes. */
  predicate Unsends(s: State, a: Action, t: nat) {
    && (a.DispatcherCrash? || (a.Dispatch? && !a.ok))
    && a.dispatcher in s.dispatchers && t in s.tasks
    && Publishing(s.dispatchers[a.dispatcher], s.tasks[t].notification, t)
  }

  /** Nobody has touched the row of a task that was not published. */
  ghost predicate UnpublishedOpen(s: State) {
    forall t :: t in s.tasks && t !in s.history.published ==> s.tasks[t].status == TaskPending
  }

  // ---------------------------------------------------------------- unpublished rows stay open

  lemma WorkKeepsOpen(cfg: Config, s: State, w: nat, built: bool, outcome: Outcome)
    requires WorkEnabled(s, w) && s.workers[w].task in s.history.published && UnpublishedOpen(s)
    ensures UnpublishedOpen(WorkNext(cfg, s, w, built, outcome))
  {
    hide WorkerAfter, NotificationsAfterWork, RetryQueueAfterWork;
  }

  lemma DispatchKeepsOpen(cfg: Config, s: State, d: nat, newTask: nat)
    requires DispatchEnabled(cfg, s, d, newTask) && UnpublishedOpen(s)
    ensures UnpublishedOpen(DispatchNext(cfg, s, d, newTask))
  {
    hide DispatcherAfter, InsertSucceeds;
  }

  lemma OpenKept(cfg: Config, s: State, a: Action)
    requires Structure(cfg, s) && Enabled(cfg, s, a) && UnpublishedOpen(s)
    ensures UnpublishedOpen(Next(cfg, s, a))
  {
    hide UnpublishedOpen, DispatchNext, WorkNext, WorkFault, DispatchEnabled;
    if a.Work? && a.ok {
      assert s.workers[a.worker].task in s.history.published;
      hide Structure;
      WorkKeepsOpen(cfg, s, a.worker, a.built, a.outcome);
    } else if a.Dispatch? && a.ok {
      hide Structure;
      DispatchKeepsOpen(cfg, s, a.dispatcher, a.newTask);
    } else {
      hide Structure;
      OthersKeepTasks(cfg, s, a);
      SameOpen(s, Next(cfg, s, a));
    }
  }

  lemma SameOpen(s: State, s': State)
    requires UnpublishedOpen(s) && s'.tasks == s.tasks && s'.history.published == s.history.published
    ensures UnpublishedOpen(s')
  {
  }

  /** Everything but a successful call of a worker or a dispatcher leaves the rows alone. */
  lemma OthersKeepTasks(cfg: Config, s: State, a: Action)
    requires Enabled(cfg, s, a) && !(a.Work? && a.ok) && !(a.Dispatch? && a.ok)
    ensures Next(cfg, s, a).tasks == s.tasks && Next(cfg, s, a).history.published == s.history.published
  {
    hide DispatchNext, WorkNext, DispatchEnabled, TakeNext, ExpireNext, CrashNext;
    if a.Take? {
      TakeSparesRows(s, a.worker, a.task);
    } else if a.Expire? {
      ExpireSparesRows(s, a.task);
    } else if a.WorkerCrash? {
      CrashSparesRows(s, a.worker);
    }
  }

  // ---------------------------------------------------------------- steps of others

  lemma SameUnsent(s: State, s': State, t: nat)
    requires t in s'.tasks <==> t in s.tasks
    requires t in s.tasks ==> s'.tasks[t].notification == s.tasks[t].notification
    requires t in s'.history.published <==> t in s.history.published
    requires t in s.tasks ==> (PastPending(s', s.tasks[t].notification) <==> PastPending(s, s.tasks[t].notification))
    requires t in s.tasks ==> (Sending(s', s.tasks[t].notification, t) <==> Sending(s, s.tasks[t].notification, t))
    ensures Unsent(s', t) <==> Unsent(s, t)
  {
  }

  lemma WorkUnsendsNothing(cfg: Config, s: State, w: nat, built: bool, outcome: Outcome, t: nat)
    requires Structure(cfg, s) && WorkEnabled(s, w)
    ensures Unsent(WorkNext(cfg, s, w, built, outcome), t) <==> Unsent(s, t)
  {
    var s' := WorkNext(cfg, s, w, built, outcome);
    WorkKeepsPast(cfg, s, w, built, outcome);
    hide Structure, WorkNext, Sending;
    assert s'.dispatchers == s.dispatchers;
    assert t in s.tasks ==> (Sending(s', s.tasks[t].notification, t) <==> Sending(s, s.tasks[t].notification, t)) by {
      SameSenders(s, s');
    }
    SameUnsent(s, s', t);
  }

  lemma SameSenders(s: State, s': State)
    requires s'.dispatchers == s.dispatchers
    ensures forall n, t :: Sending(s', n, t) <==> Sending(s, n, t)
  {
  }

  lemma WorkKeepsPast(cfg: Config, s: State, w: nat, built: bool, outcome: Outcome)
    requires Structure(cfg, s) && WorkEnabled(s, w)
    ensures var s' := WorkNext(cfg, s, w, built, outcome);
            && s'.dispatchers == s.dispatchers && s'.history.published == s.history.published
            && s'.tasks.Keys == s.tasks.Keys
            && (forall t :: t in s.tasks ==> s'.tasks[t].notification == s.tasks[t].notification)
            && (forall n :: PastPending(s', n) <==> PastPending(s, n))
  {
    hide Structure, WorkNext, IsPending;
    WorkTouches(cfg, s, w, built, outcome);
    WorkKeepsOwners(cfg, s, w, built, outcome);
    forall n ensures PastPending(WorkNext(cfg, s, w, built, outcome), n) <==> PastPending(s, n) {
      WorkKeepsPending(cfg, s, w, built, outcome, n);
      PastIsKnown(s, n);
      PastIsKnown(WorkNext(cfg, s, w, built, outcome), n);
    }
  }

  lemma PastIsKnown(s: State, n: nat)
    ensures PastPending(s, n) <==> n in s.notifications && !IsPending(s, n)
  {
  }

  lemma WorkKeepsOwners(cfg: Config, s: State, w: nat, built: bool, outcome: Outcome)
    requires WorkEnabled(s, w)
    ensures var s' := WorkNext(cfg, s, w, built, outcome);
            && s'.dispatchers == s.dispatchers && s'.tasks.Keys == s.tasks.Keys
            && forall t :: t in s.tasks ==> s'.tasks[t].notification == s.tasks[t].notification
  {
    hide WorkerAfter, HistoryAfterWork, RetryQueueAfterWork, NotificationsAfterWork;
    WorkKeepsKeys(s, s.workers[w].task, s.workers[w].stage);
    hide TasksAfterWork;
  }

  /** A step that writes no row and moves no dispatcher that publishes. */
  lemma OthersUnsendNothing(cfg: Config, s: State, a: Action, t: nat)
    requires Structure(cfg, s) && Enabled(cfg, s, a)
    requires !a.Dispatch? && !a.DispatcherCrash? && !(a.Work? && a.ok)
    ensures Unsent(Next(cfg, s, a), t) <==> Unsent(s, t)
  {
    var s' := Next(cfg, s, a);
    OthersKeepTasks(cfg, s, a);
    OthersKeepPast(cfg, s, a);
    OthersKeepSenders(cfg, s, a);
    RowsAreKnown(cfg, s);
    hide Structure, Next, Enabled, Sending;
    SameUnsent(s, s', t);
  }

  lemma RowsAreKnown(cfg: Config, s: State)
    requires Structure(cfg, s)
    ensures forall t :: t in s.tasks ==> s.tasks[t].notification in s.notifications
  {
  }

  lemma OthersKeepPast(cfg: Config, s: State, a: Action)
    requires Enabled(cfg, s, a) && !(a.Work? && a.ok) && !a.Dispatch?
    ensures forall n :: n in s.notifications ==> (PastPending(Next(cfg, s, a), n) <==> PastPending(s, n))
  {
    hide DispatchNext, WorkNext, DispatchEnabled;
  }

  lemma OthersKeepSenders(cfg: Config, s: State, a: Action)
    requires Enabled(cfg, s, a)
    requires !a.Dispatch? && !a.DispatcherCrash? && !(a.Work? && a.ok)
    ensures forall n, t :: Sending(Next(cfg, s, a), n, t) <==> Sending(s, n, t)
  {
    hide DispatchNext, WorkNext, DispatchEnabled;
    var s' := Next(cfg, s, a);
    if a.Receive? {
      OneMoves(s, s', a.dispatcher);
    } else {
      assert s'.dispatchers == s.dispatchers;
    }
  }

  /** A dispatcher that publishes nothing before or after its step. */
  lemma OneMoves(s: State, s': State, d: nat)
    requires d in s.dispatchers && d in s'.dispatchers && s'.dispatchers == s.dispatchers[d := s'.dispatchers[d]]
    requires s.dispatchers[d].Dispatching? ==> !s.dispatchers[d].stage.PublishTasks?
    requires s'.dispatchers[d].Dispatching? ==> !s'.dispatchers[d].stage.PublishTasks?
    ensures forall n, t :: Sending(s', n, t) <==> Sending(s, n, t)
  {
    hide Sending;
    forall n, t ensures Sending(s', n, t) <==> Sending(s, n, t) { SenderMoves(s, s', d, n, t); }
  }

  /** One dispatcher moves, and publishes `t` before its step exactly if it does after it. */
  lemma SenderMoves(s: State, s': State, d: nat, n: nat, t: nat)
    requires d in s.dispatchers && d in s'.dispatchers && s'.dispatchers == s.dispatchers[d := s'.dispatchers[d]]
    requires Publishing(s'.dispatchers[d], n, t) <==> Publishing(s.dispatchers[d], n, t)
    ensures Sending(s', n, t) <==> Sending(s, n, t)
  {
    hide Publishing;
    if e :| e in s.dispatchers && Publishing(s.dispatchers[e], n, t) { assert Publishing(s'.dispatchers[e], n, t); }
    if e :| e in s'.dispatchers && Publishing(s'.dispatchers[e], n, t) { assert Publishing(s.dispatchers[e], n, t); }
  }

  // ---------------------------------------------------------------- the dispatcher's own steps

  lemma GiveUpUnsendsIff(cfg: Config, s: State, d: nat, t: nat)
    requires Structure(cfg, s) && d in s.dispatchers
    ensures Unsent(DispatchFault(s, d), t) <==>
              Unsent(s, t) || (t in s.tasks && Publishing(s.dispatchers[d], s.tasks[t].notification, t))
  {
    var s' := DispatchFault(s, d);
    if t in s.tasks {
      var n := s.tasks[t].notification;
      DispatcherIsOk(cfg, s, d);
      WaitersPublishNothing(n, t);
      assert DispatchersOk(cfg, s);
      hide Structure, DispatcherOk, DispatchedOk, DispatchersOk, Publishing;
      if Publishing(s.dispatchers[d], n, t) {
        PublisherFacts(cfg, s, s.dispatchers[d], n, t);
        OneOwner(cfg, s, d, n, t);
        assert forall e :: e in s'.dispatchers ==> !Publishing(s'.dispatchers[e], n, t);
      } else {
        SenderMoves(s, s', d, n, t);
        hide Sending;
        SameUnsent(s, s', t);
      }
    }
  }

  lemma WaitersPublishNothing(n: nat, t: nat)
    ensures !Publishing(Waiting, n, t)
  {
  }

  lemma PublisherFacts(cfg: Config, s: State, pc: Dispatcher, n: nat, t: nat)
    requires DispatcherOk(cfg, s, pc) && Publishing(pc, n, t)
    ensures Owned(pc) != [] && pc.notification == n && Fresh(s, n, t) && PastPending(s, n)
  {
  }

  lemma OneOwner(cfg: Config, s: State, d: nat, n: nat, t: nat)
    requires DispatchersOk(cfg, s) && d in s.dispatchers && Publishing(s.dispatchers[d], n, t)
    ensures forall e :: e in s.dispatchers && e != d ==> !Publishing(s.dispatchers[e], n, t)
  {
    hide DispatcherOk;
    PublisherOwns(s.dispatchers[d], n, t);
    forall e | e in s.dispatchers && e != d ensures !Publishing(s.dispatchers[e], n, t) {
      PublisherOwns(s.dispatchers[e], n, t);
    }
    hide Publishing, Owned;
  }

  lemma PublisherOwns(pc: Dispatcher, n: nat, t: nat)
    ensures Publishing(pc, n, t) ==> Owned(pc) != [] && pc.Dispatching? && pc.notification == n
  {
  }

  /** Marking makes every task of the notification one to be published; publishing takes the first off. */
  lemma DispatchUnsendsNothing(cfg: Config, s: State, d: nat, newTask: nat, t: nat)
    requires Structure(cfg, s) && DispatchEnabled(cfg, s, d, newTask)
    ensures Unsent(DispatchNext(cfg, s, d, newTask), t) <==> Unsent(s, t)
  {
    var stage := s.dispatchers[d].stage;
    hide Structure, DispatchNext, Unsent;
    if stage.MarkDelivering? {
      MarkUnsendsNothing(cfg, s, d, newTask, t);
    } else if stage.PublishTasks? {
      PublishUnsendsNothing(cfg, s, d, newTask, t);
    } else if stage.MarkFailed? {
      FailUnsendsNothing(cfg, s, d, newTask, t);
    } else {
      EarlyUnsendsNothing(cfg, s, d, newTask, t);
    }
  }

  /** Reading and inserting: a new row belongs to a PENDING notification. */
  lemma EarlyUnsendsNothing(cfg: Config, s: State, d: nat, newTask: nat, t: nat)
    requires Structure(cfg, s) && DispatchEnabled(cfg, s, d, newTask)
    requires s.dispatchers[d].stage.Load? || s.dispatchers[d].stage.ReadEventType? || s.dispatchers[d].stage.InsertTask?
    ensures Unsent(DispatchNext(cfg, s, d, newTask), t) <==> Unsent(s, t)
  {
    var s', stage := DispatchNext(cfg, s, d, newTask), s.dispatchers[d].stage;
    NewRowIsPending(cfg, s, d, newTask);
    EarlySendsNothing(cfg, s, d, newTask);
    OneMoves(s, s', d);
    hide Structure, DispatcherAfter, InsertSucceeds, Sending;
    if t == newTask && stage.InsertTask? {
      assert !Unsent(s, t);
    } else {
      SameUnsent(s, s', t);
    }
  }

  lemma NewRowIsPending(cfg: Config, s: State, d: nat, newTask: nat)
    requires Structure(cfg, s) && DispatchEnabled(cfg, s, d, newTask)
    ensures var s' := DispatchNext(cfg, s, d, newTask);
            s.dispatchers[d].stage.InsertTask? && newTask in s'.tasks ==>
              !PastPending(s', s'.tasks[newTask].notification)
  {
    hide DispatcherAfter;
    DispatcherIsOk(cfg, s, d);
    if s.dispatchers[d].stage.InsertTask? {
      if InsertSucceeds(cfg, s, s.dispatchers[d].notification, s.dispatchers[d].stage.created) {
        InsertMeansPending(cfg, s, s.dispatchers[d].notification);
      }
    }
    hide RowsOk, FirstRowOk, UniqueTasks, PublishedOk, WorkersOk, DispatchersOk, DispatchedOk;
  }

  lemma EarlySendsNothing(cfg: Config, s: State, d: nat, newTask: nat)
    requires DispatchEnabled(cfg, s, d, newTask)
    requires s.dispatchers[d].stage.Load? || s.dispatchers[d].stage.ReadEventType? || s.dispatchers[d].stage.InsertTask?
    ensures var s' := DispatchNext(cfg, s, d, newTask);
            && d in s'.dispatchers && s'.dispatchers == s.dispatchers[d := s'.dispatchers[d]]
            && (s'.dispatchers[d].Dispatching? ==> !s'.dispatchers[d].stage.PublishTasks?)
  {
    hide InsertSucceeds, TasksAfterDispatch;
  }

  lemma MarkUnsendsNothing(cfg: Config, s: State, d: nat, newTask: nat, t: nat)
    requires Structure(cfg, s) && DispatchEnabled(cfg, s, d, newTask) && s.dispatchers[d].stage.MarkDelivering?
    ensures Unsent(DispatchNext(cfg, s, d, newTask), t) <==> Unsent(s, t)
  {
    var s' := DispatchNext(cfg, s, d, newTask);
    var n, created := s.dispatchers[d].notification, s.dispatchers[d].stage.created;
    DispatcherIsOk(cfg, s, d);
    CreatedIsAll(cfg, s, d);
    MarkMoves(cfg, s, d, newTask);
    hide *;
    MarkingUnsendsNothing(s, s', d, n, created, t);
  }

  lemma MarkingUnsendsNothing(s: State, s': State, d: nat, n: nat, created: seq<nat>, t: nat)
    requires d in s.dispatchers && s.dispatchers[d] == Dispatching(n, MarkDelivering(created))
    requires s'.tasks == s.tasks && s'.history == s.history
    requires s'.dispatchers == s.dispatchers[d := Dispatching(n, PublishTasks(created))]
    requires s'.notifications == SetNotificationStatus(s.notifications, n, Delivering) && !PastPending(s, n)
    requires forall u :: u in s.tasks && s.tasks[u].notification == n ==> u in created
    ensures Unsent(s', t) <==> Unsent(s, t)
  {
    if t in s.tasks && s.tasks[t].notification == n {
      assert Publishing(s'.dispatchers[d], n, t);
    } else if t in s.tasks {
      SenderMoves(s, s', d, s.tasks[t].notification, t);
      hide Sending;
      SameUnsent(s, s', t);
    }
  }

  lemma CreatedIsAll(cfg: Config, s: State, d: nat)
    requires d in s.dispatchers && DispatcherOk(cfg, s, s.dispatchers[d])
    requires s.dispatchers[d].Dispatching? && s.dispatchers[d].stage.MarkDelivering?
    ensures var n := s.dispatchers[d].notification;
            && !PastPending(s, n)
            && forall u :: u in s.tasks && s.tasks[u].notification == n ==> u in s.dispatchers[d].stage.created
  {
  }

  lemma MarkMoves(cfg: Config, s: State, d: nat, newTask: nat)
    requires DispatchEnabled(cfg, s, d, newTask) && s.dispatchers[d].stage.MarkDelivering?
    ensures var s', n := DispatchNext(cfg, s, d, newTask), s.dispatchers[d].notification;
            && s'.tasks == s.tasks && s'.history == s.history
            && s'.dispatchers == s.dispatchers[d := Dispatching(n, PublishTasks(s.dispatchers[d].stage.created))]
            && s'.notifications == SetNotificationStatus(s.notifications, n, Delivering)
  {
  }

  lemma PublishUnsendsNothing(cfg: Config, s: State, d: nat, newTask: nat, t: nat)
    requires Structure(cfg, s) && DispatchEnabled(cfg, s, d, newTask) && s.dispatchers[d].stage.PublishTasks?
    ensures Unsent(DispatchNext(cfg, s, d, newTask), t) <==> Unsent(s, t)
  {
    var s', remaining := DispatchNext(cfg, s, d, newTask), s.dispatchers[d].stage.remaining;
    DispatcherIsOk(cfg, s, d);
    FirstIsPublishing(cfg, s, d);
    PublishMoves(cfg, s, d, newTask);
    var n := s.dispatchers[d].notification;
    hide *;
    PublishingUnsendsNothing(s, s', d, n, remaining, t);
  }

  lemma PublishingUnsendsNothing(s: State, s': State, d: nat, n: nat, remaining: seq<nat>, t: nat)
    requires d in s.dispatchers && remaining != [] && s.dispatchers[d] == Dispatching(n, PublishTasks(remaining))
    requires s'.tasks == s.tasks && s'.notifications == s.notifications
    requires s'.history.published == s.history.published + {remaining[0]}
    requires s'.dispatchers == s.dispatchers[d :=
               if |remaining| == 1 then Waiting else Dispatching(n, PublishTasks(remaining[1..]))]
    requires remaining[0] in s.tasks && Publishing(s.dispatchers[d], s.tasks[remaining[0]].notification, remaining[0])
    ensures Unsent(s', t) <==> Unsent(s, t)
  {
    if t in s.tasks && t != remaining[0] {
      var m := s.tasks[t].notification;
      assert Publishing(s'.dispatchers[d], m, t) <==> Publishing(s.dispatchers[d], m, t);
      SenderMoves(s, s', d, m, t);
      hide Sending;
      SameUnsent(s, s', t);
    }
  }

  lemma FirstIsPublishing(cfg: Config, s: State, d: nat)
    requires d in s.dispatchers && DispatcherOk(cfg, s, s.dispatchers[d])
    requires s.dispatchers[d].Dispatching? && s.dispatchers[d].stage.PublishTasks?
    ensures var t := s.dispatchers[d].stage.remaining[0];
            t in s.tasks && Publishing(s.dispatchers[d], s.tasks[t].notification, t)
  {
    assert Fresh(s, s.dispatchers[d].notification, s.dispatchers[d].stage.remaining[0]);
  }

  lemma PublishMoves(cfg: Config, s: State, d: nat, newTask: nat)
    requires DispatchEnabled(cfg, s, d, newTask) && s.dispatchers[d].stage.PublishTasks?
    ensures var s' := DispatchNext(cfg, s, d, newTask);
            var n, remaining := s.dispatchers[d].notification, s.dispatchers[d].stage.remaining;
            && s'.tasks == s.tasks && s'.notifications == s.notifications
            && s'.history.published == s.history.published + {remaining[0]}
            && s'.dispatchers == s.dispatchers[d :=
                 if |remaining| == 1 then Waiting else Dispatching(n, PublishTasks(remaining[1..]))]
  {
  }

  /** A notification without vendors has no tasks. */
  lemma FailUnsendsNothing(cfg: Config, s: State, d: nat, newTask: nat, t: nat)
    requires Structure(cfg, s) && DispatchEnabled(cfg, s, d, newTask) && s.dispatchers[d].stage.MarkFailed?
    ensures Unsent(DispatchNext(cfg, s, d, newTask), t) <==> Unsent(s, t)
  {
    var s', n := DispatchNext(cfg, s, d, newTask), s.dispatchers[d].notification;
    DispatcherIsOk(cfg, s, d);
    RowsHaveVendors(cfg, s);
    assert t in s.tasks ==> s.tasks[t].notification != n;
    hide Structure, DispatcherOk, DispatchedOk, VendorsOf;
    OneMoves(s, s', d);
    hide Sending;
    SameUnsent(s, s', t);
  }

  /** A task of a dispatched notification is left unpublished by exactly one kind of step, and for good. */
  lemma StepUnsendsIff(cfg: Config, s: State, a: Action, t: nat)
    requires Structure(cfg, s) && Enabled(cfg, s, a)
    ensures Unsent(Next(cfg, s, a), t) <==> Unsent(s, t) || Unsends(s, a, t)
  {
    hide Structure, Unsent, Publishing, DispatchNext, WorkNext, DispatchFault;
    if a.Work? && a.ok {
      WorkUnsendsNothing(cfg, s, a.worker, a.built, a.outcome, t);
    } else if a.Dispatch? && a.ok {
      DispatchUnsendsNothing(cfg, s, a.dispatcher, a.newTask, t);
    } else if a.Dispatch? || a.DispatcherCrash? {
      GiveUpUnsendsIff(cfg, s, a.dispatcher, t);
    } else {
      OthersUnsendNothing(cfg, s, a, t);
    }
  }
}
