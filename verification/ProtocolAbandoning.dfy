/**
  A PENDING notification whose task creation was given up halfway: exactly which steps abandon it,
  and that no step of anyone takes it up again.
 */
module ProtocolAbandoning {
  import opened Protocol
  import opened ProtocolInvariants

  ghost predicate HasTask(tasks: map<nat, Task>, n: nat) {
    exists t :: t in tasks && tasks[t].notification == n
  }

  /** The dispatcher created tasks of `n` and has not published them all. */
  predicate Owns(pc: Dispatcher, n: nat) {
    Owned(pc) != [] && pc.notification == n
  }

  predicate IsPending(s: State, n: nat) {
    n in s.notifications && s.notifications[n].status == Pending
  }

  ghost predicate Unowned(s: State, n: nat) {
    forall d :: d in s.dispatchers ==> !Owns(s.dispatchers[d], n)
  }

  /** PENDING with a task, and no dispatcher is on its way to dispatch it. */
  ghost predicate Abandoned(s: State, n: nat) {
    IsPending(s, n) && HasTask(s.tasks, n) && Unowned(s, n)
  }

  /** The dispatcher's next call is the insert of a vendor that has a task already. */
  predicate Duplicates(cfg: Config, s: State, d: nat, newTask: nat)
    requires DispatchEnabled(cfg, s, d, newTask)
  {
    s.dispatchers[d].stage.InsertTask? &&
        !InsertSucceeds(cfg, s, s.dispatchers[d].notification, s.dispatchers[d].stage.created)
  }

  /** The step that abandons: the owner of tasks of a PENDING notification fails, crashes, or meets a duplicate. */
  predicate Abandons(cfg: Config, s: State, a: Action, n: nat) {
    Enabled(cfg, s, a) &&
    match a
    case Dispatch(d, ok, newTask) => IsPending(s, n) && Owns(s.dispatchers[d], n) &&
        (!ok || Duplicates(cfg, s, d, newTask))
    case DispatcherCrash(d) => IsPending(s, n) && Owns(s.dispatchers[d], n)
    case _ => false
  }

  // ---------------------------------------------------------------- every step

  lemma SamePending(s: State, s': State, n: nat)
    requires IsPending(s', n) <==> IsPending(s, n)
    requires HasTask(s'.tasks, n) <==> HasTask(s.tasks, n)
    requires Unowned(s', n) <==> Unowned(s, n)
    ensures Abandoned(s', n) <==> Abandoned(s, n)
  {
  }

  /** A dispatcher that owned nothing of `n` and owns nothing of it afterwards. */
  lemma SameOwners(s: State, s': State, d: nat, n: nat)
    requires d in s.dispatchers && d in s'.dispatchers && s'.dispatchers == s.dispatchers[d := s'.dispatchers[d]]
    requires !Owns(s.dispatchers[d], n) && !Owns(s'.dispatchers[d], n)
    ensures Unowned(s', n) <==> Unowned(s, n)
  {
    hide Owns;
    if Unowned(s', n) {
      forall e | e in s.dispatchers ensures !Owns(s.dispatchers[e], n) {
        if e != d { assert !Owns(s'.dispatchers[e], n); }
      }
    }
  }

  /** The owner of tasks of a PENDING notification gives up. */
  lemma OwnerGivesUp(cfg: Config, s: State, s': State, d: nat, n: nat)
    requires DispatchersOk(cfg, s) && d in s.dispatchers
    requires s'.dispatchers == s.dispatchers[d := Waiting] && s'.notifications == s.notifications && s'.tasks == s.tasks
    ensures Abandoned(s', n) <==> Abandoned(s, n) || (IsPending(s, n) && Owns(s.dispatchers[d], n))
  {
    if Owns(s.dispatchers[d], n) {
      assert DispatcherOk(cfg, s, s.dispatchers[d]);
      OwnedUnpublished(cfg, s, s.dispatchers[d]);
      assert Fresh(s, n, Owned(s.dispatchers[d])[0]);
      hide DispatcherOk;
      forall e | e in s'.dispatchers ensures !Owns(s'.dispatchers[e], n) {}
      assert !Unowned(s, n);
    } else {
      SameOwners(s, s', d, n);
    }
  }

  /** Workers, the broker and the ingestion of other notifications. */
  lemma WorkAbandonsNothing(cfg: Config, s: State, w: nat, built: bool, outcome: Outcome, n: nat)
    requires Structure(cfg, s) && WorkEnabled(s, w)
    ensures Abandoned(WorkNext(cfg, s, w, built, outcome), n) <==> Abandoned(s, n)
  {
    var s' := WorkNext(cfg, s, w, built, outcome);
    WorkerIsOk(cfg, s, w);
    WorkKeepsPending(cfg, s, w, built, outcome, n);
    hide Structure, SnapshotOk, WorkNext;
    SamePending(s, s', n);
  }

  lemma WorkKeepsPending(cfg: Config, s: State, w: nat, built: bool, outcome: Outcome, n: nat)
    requires Structure(cfg, s) && WorkEnabled(s, w)
    ensures var s' := WorkNext(cfg, s, w, built, outcome);
            && s'.dispatchers == s.dispatchers
            && (IsPending(s', n) <==> IsPending(s, n))
            && (HasTask(s'.tasks, n) <==> HasTask(s.tasks, n))
  {
    var s' := WorkNext(cfg, s, w, built, outcome);
    var t, stage := s.workers[w].task, s.workers[w].stage;
    WorkerIsOk(cfg, s, w);
    if stage.WriteStatus? { assert t in s.history.published &&
        s.notifications[stage.row.notification].status != Pending; }
    hide Structure, SnapshotOk, WorkerAfter;
    WorkKeepsKeys(s, t, stage);
    SameTasks(s.tasks, s'.tasks, n);
  }

  lemma WorkKeepsKeys(s: State, t: nat, stage: WorkerStage)
    ensures var ts := TasksAfterWork(s.tasks, t, stage);
            ts.Keys == s.tasks.Keys && forall u :: u in s.tasks ==> ts[u].notification == s.tasks[u].notification
  {
  }

  lemma SameTasks(ts: map<nat, Task>, ts': map<nat, Task>, n: nat)
    requires ts'.Keys == ts.Keys && forall u :: u in ts ==> ts'[u].notification == ts[u].notification
    ensures HasTask(ts', n) <==> HasTask(ts, n)
  {
  }

  lemma ArrivalAbandonsNothing(cfg: Config, s: State, a: Action, n: nat)
    requires RowsOk(cfg, s) && Enabled(cfg, s, a) && a.Arrive?
    ensures Abandoned(Next(cfg, s, a), n) <==> Abandoned(s, n)
  {
    var s' := Next(cfg, s, a);
    assert s'.tasks == s.tasks && s'.dispatchers == s.dispatchers;
    if n == a.notification { assert !HasTask(s.tasks, n); }
  }

  /** Steps that write no row and move no dispatcher that owns tasks. */
  lemma OthersAbandonNothing(cfg: Config, s: State, a: Action, n: nat)
    requires Enabled(cfg, s, a)
    requires a.PublishTrigger? || a.Receive? || a.Take? || a.Expire? || a.WorkerCrash? || (a.Work? && !a.ok)
    ensures Abandoned(Next(cfg, s, a), n) <==> Abandoned(s, n)
  {
    var s' := Next(cfg, s, a);
    assert s'.tasks == s.tasks && s'.notifications == s.notifications;
    if a.Receive? {
      SameOwners(s, s', a.dispatcher, n);
    } else {
      assert s'.dispatchers == s.dispatchers;
    }
    hide Next, Enabled;
  }

  // ---------------------------------------------------------------- the dispatcher's own calls

  lemma DispatchAbandonsIff(cfg: Config, s: State, d: nat, newTask: nat, n: nat)
    requires Structure(cfg, s) && DispatchEnabled(cfg, s, d, newTask)
    ensures Abandoned(DispatchNext(cfg, s, d, newTask), n) <==>
              Abandoned(s, n) || (IsPending(s, n) && Owns(s.dispatchers[d], n) && Duplicates(cfg, s, d, newTask))
  {
    var m, stage := s.dispatchers[d].notification, s.dispatchers[d].stage;
    hide Structure, Abandoned, DispatchNext;
    if stage.InsertTask? {
      if Duplicates(cfg, s, d, newTask) {
        DuplicateGivesUp(cfg, s, d, newTask, n);
      } else if m == n {
        InsertKeepsOwner(cfg, s, d, newTask);
      } else {
        DispatchSparesOthers(cfg, s, d, newTask, n);
      }
    } else if m != n {
      DispatchSparesOthers(cfg, s, d, newTask, n);
    } else if stage.MarkFailed? {
      MarkFailedHasNoTask(cfg, s, d, newTask);
    } else if stage.MarkDelivering? || stage.PublishTasks? {
      DispatchedIsNotPending(cfg, s, d, newTask);
    } else {
      ReadingOwnsNothing(cfg, s, d, newTask);
    }
  }

  lemma DuplicateGivesUp(cfg: Config, s: State, d: nat, newTask: nat, n: nat)
    requires Structure(cfg, s) && DispatchEnabled(cfg, s, d, newTask) && Duplicates(cfg, s, d, newTask)
    ensures Abandoned(DispatchNext(cfg, s, d, newTask), n) <==>
        Abandoned(s, n) || (IsPending(s, n) && Owns(s.dispatchers[d], n))
  {
    hide RowsOk, FirstRowOk, UniqueTasks, PublishedOk, WorkersOk, DispatchersOk, DispatchedOk, Abandoned,
        InsertSucceeds;
    OwnerGivesUp(cfg, s, DispatchNext(cfg, s, d, newTask), d, n);
  }

  lemma InsertKeepsOwner(cfg: Config, s: State, d: nat, newTask: nat)
    requires Structure(cfg, s) && DispatchEnabled(cfg, s, d, newTask)
    requires s.dispatchers[d].stage.InsertTask? && !Duplicates(cfg, s, d, newTask)
    ensures var n := s.dispatchers[d].notification;
            !Abandoned(DispatchNext(cfg, s, d, newTask), n) && !Abandoned(s, n)
  {
    var s', n, created := DispatchNext(cfg, s, d, newTask), s.dispatchers[d].notification,
        s.dispatchers[d].stage.created;
    DispatcherIsOk(cfg, s, d);
    assert Owns(s'.dispatchers[d], n);
    if created == [] {
      InsertMeansNoRows(cfg, s, n);
      assert !HasTask(s.tasks, n);
    } else {
      assert Owns(s.dispatchers[d], n);
    }
  }

  lemma DispatchSparesOthers(cfg: Config, s: State, d: nat, newTask: nat, n: nat)
    requires DispatchEnabled(cfg, s, d, newTask) && s.dispatchers[d].notification != n
    ensures Abandoned(DispatchNext(cfg, s, d, newTask), n) <==> Abandoned(s, n)
  {
    var s' := DispatchNext(cfg, s, d, newTask);
    OwnsOneNotification(cfg, s, d, newTask, n);
    SameOwners(s, s', d, n);
    hide DispatcherAfter, InsertSucceeds, Unowned;
    assert IsPending(s', n) <==> IsPending(s, n);
    assert newTask !in s.tasks || s'.tasks == s.tasks;
    if HasTask(s.tasks, n) {
      var u :| u in s.tasks && s.tasks[u].notification == n;
      assert s'.tasks[u].notification == n;
    }
    if HasTask(s'.tasks, n) {
      var u :| u in s'.tasks && s'.tasks[u].notification == n;
      assert u in s.tasks && s.tasks[u].notification == n;
    }
  }

  lemma OwnsOneNotification(cfg: Config, s: State, d: nat, newTask: nat, n: nat)
    requires DispatchEnabled(cfg, s, d, newTask) && s.dispatchers[d].notification != n
    ensures var s' := DispatchNext(cfg, s, d, newTask);
            && d in s'.dispatchers && s'.dispatchers == s.dispatchers[d := s'.dispatchers[d]]
            && !Owns(s'.dispatchers[d], n)
  {
    hide TasksAfterDispatch, InsertSucceeds;
  }

  lemma MarkFailedHasNoTask(cfg: Config, s: State, d: nat, newTask: nat)
    requires Structure(cfg, s) && DispatchEnabled(cfg, s, d, newTask) && s.dispatchers[d].stage.MarkFailed?
    ensures var n := s.dispatchers[d].notification;
            !Abandoned(DispatchNext(cfg, s, d, newTask), n) && !Abandoned(s, n)
  {
    var n := s.dispatchers[d].notification;
    DispatcherIsOk(cfg, s, d);
    assert forall t :: t in s.tasks && s.tasks[t].notification == n ==>
        s.tasks[t].vendor in VendorsOf(cfg, s.notifications, n);
    assert !HasTask(s.tasks, n);
    hide Structure, DispatcherOk, DispatchedOk, HasTask;
  }

  lemma DispatchedIsNotPending(cfg: Config, s: State, d: nat, newTask: nat)
    requires Structure(cfg, s) && DispatchEnabled(cfg, s, d, newTask)
    requires s.dispatchers[d].stage.MarkDelivering? || s.dispatchers[d].stage.PublishTasks?
    ensures var n := s.dispatchers[d].notification;
            !Abandoned(DispatchNext(cfg, s, d, newTask), n) && !Abandoned(s, n)
  {
    DispatcherIsOk(cfg, s, d);
    assert Owns(s.dispatchers[d], s.dispatchers[d].notification);
    hide HasTask, DispatcherAfter, TasksAfterDispatch;
  }

  lemma ReadingOwnsNothing(cfg: Config, s: State, d: nat, newTask: nat)
    requires DispatchEnabled(cfg, s, d, newTask) &&
        (s.dispatchers[d].stage.Load? || s.dispatchers[d].stage.ReadEventType?)
    ensures var n := s.dispatchers[d].notification;
            && (Abandoned(DispatchNext(cfg, s, d, newTask), n) <==> Abandoned(s, n))
            && !Owns(s.dispatchers[d], n)
  {
    SameOwners(s, DispatchNext(cfg, s, d, newTask), d, s.dispatchers[d].notification);
    hide Unowned;
  }

  /** A notification is abandoned by exactly one kind of step, and stays abandoned, whatever anyone does. */
  lemma StepAbandonsIff(cfg: Config, s: State, a: Action, n: nat)
    requires Structure(cfg, s) && Enabled(cfg, s, a)
    ensures Abandoned(Next(cfg, s, a), n) <==> Abandoned(s, n) || Abandons(cfg, s, a, n)
  {
    hide RowsOk, FirstRowOk, UniqueTasks, PublishedOk, WorkersOk, DispatchersOk, DispatchedOk;
    hide Abandoned, IsPending, Owns, DispatchNext, WorkNext, WorkFault, CrashNext, Duplicates;
    match a {
      case Arrive(_, _) => ArrivalAbandonsNothing(cfg, s, a, n);
      case Work(w, ok, built, outcome) =>
        if ok { WorkAbandonsNothing(cfg, s, w, built, outcome, n); } else { OthersAbandonNothing(cfg, s, a, n); }
      case Dispatch(d, ok, newTask) =>
        if ok { DispatchAbandonsIff(cfg, s, d, newTask, n); } else { OwnerGivesUp(cfg, s, DispatchFault(s, d), d, n); }
      case DispatcherCrash(d) => OwnerGivesUp(cfg, s, DispatchFault(s, d), d, n);
      case _ => OthersAbandonNothing(cfg, s, a, n);
    }
  }

  /**
    Rules that name no vendor twice never make an insert fail for the dispatcher that owns the notification's
    tasks.
   */
  lemma DistinctRulesMeetNoDuplicate(cfg: Config, s: State, d: nat, newTask: nat)
    requires Structure(cfg, s) && DispatchEnabled(cfg, s, d, newTask)
    requires NoDuplicates(VendorsOf(cfg, s.notifications, s.dispatchers[d].notification))
    requires Owned(s.dispatchers[d]) != []
    ensures !Duplicates(cfg, s, d, newTask)
  {
    DispatcherIsOk(cfg, s, d);
    hide RowsOk, FirstRowOk, UniqueTasks, PublishedOk, WorkersOk, DispatchersOk, DispatchedOk;
  }
}
