/** A DELIVERING notification that nobody will resolve: exactly which steps strand it, and that it stays so. */
module ProtocolStranding {
  import opened Protocol
  import opened ProtocolInvariants
  import opened ProtocolTokens
  import opened ProtocolVerdict

  ghost predicate Resolved(s: State, n: nat) {
    exists w :: w in s.workers && Resolving(s.workers[w], n)
  }

  /** All tasks of a DELIVERING notification are terminal, and no worker is on its way to the status write. */
  ghost predicate Stranded(s: State, n: nat) {
    Unfinished(s, n) && AllTerminal(s.tasks, n) && !Resolved(s, n)
  }

  predicate Unfinished(s: State, n: nat) {
    n in s.notifications && s.notifications[n].status == Delivering
  }

  /** `w` is the only worker resolving a DELIVERING notification whose tasks are all terminal. */
  ghost predicate LastResolver(s: State, w: nat, n: nat) {
    && Unfinished(s, n) && AllTerminal(s.tasks, n)
    && w in s.workers && Resolving(s.workers[w], n)
    && forall v :: v in s.workers && Resolving(s.workers[v], n) ==> v == w
  }

  /** The step that strands a notification: the last resolver's insert, count or status write fails. */
  ghost predicate Strands(s: State, a: Action, n: nat) {
    a.Work? && !a.ok && LastResolver(s, a.worker, n)
  }

  /** A worker that changes an outcome of `n` is on its way to resolve `n`. */
  lemma WriterResolves(cfg: Config, s: State, w: nat, built: bool, outcome: Outcome, n: nat)
    requires WorkEnabled(s, w) && SnapshotOk(cfg, s, s.workers[w].task, s.workers[w].stage)
    ensures var s' := WorkNext(cfg, s, w, built, outcome);
            SameOutcomes(s.tasks, s'.tasks, n) || Resolving(s'.workers[w], n)
  {
    hide CountVerdict, AfterPayload, AfterResponse, NotificationsAfterWork, RetryQueueAfterWork, HistoryAfterWork;
  }

  /** A successful call never strands: a resolver stops only after its status write or while tasks are open. */
  lemma WorkNeverStrands(cfg: Config, s: State, w: nat, built: bool, outcome: Outcome, n: nat)
    requires WorkEnabled(s, w) && n in s.notifications && !Stranded(s, n)
    requires SnapshotOk(cfg, s, s.workers[w].task, s.workers[w].stage)
    ensures !Stranded(WorkNext(cfg, s, w, built, outcome), n)
  {
    var s' := WorkNext(cfg, s, w, built, outcome);
    WriterResolves(cfg, s, w, built, outcome, n);
    assert w in s'.workers && s'.workers == s.workers[w := s'.workers[w]];
    if SameOutcomes(s.tasks, s'.tasks, n) {
      AggregateSame(s.tasks, s'.tasks, n);
      StayResolving(cfg, s, w, built, outcome, n);
      hide WorkNext, Aggregate, AllTerminal, SnapshotOk;
      ResolverStays(s, s', w, n);
    }
  }

  lemma ResolverStays(s: State, s': State, w: nat, n: nat)
    requires !Stranded(s, n) && n in s.notifications
    requires w in s'.workers && s'.workers == s.workers[w := s'.workers[w]]
    requires AllTerminal(s'.tasks, n) <==> AllTerminal(s.tasks, n)
    requires n in s'.notifications && s'.notifications[n].status == Delivering ==>
               && s.notifications[n].status == Delivering
               && (w in s.workers && Resolving(s.workers[w], n) && AllTerminal(s.tasks, n) ==>
                   Resolving(s'.workers[w], n))
    ensures !Stranded(s', n)
  {
    hide AllTerminal;
    if n in s'.notifications && s'.notifications[n].status == Delivering && AllTerminal(s'.tasks, n) {
      var v :| v in s.workers && Resolving(s.workers[v], n);
      assert v in s'.workers && Resolving(s'.workers[v], n);
    }
  }

  /** A resolver stops only after the status write, or because some task is not terminal yet. */
  lemma StayResolving(cfg: Config, s: State, w: nat, built: bool, outcome: Outcome, n: nat)
    requires WorkEnabled(s, w) && n in s.notifications
    requires SnapshotOk(cfg, s, s.workers[w].task, s.workers[w].stage)
    ensures var s' := WorkNext(cfg, s, w, built, outcome);
            n in s'.notifications && s'.notifications[n].status == Delivering ==>
              && s.notifications[n].status == Delivering
              && (Resolving(s.workers[w], n) && AllTerminal(s.tasks, n) ==> Resolving(s'.workers[w], n))
  {
    hide AfterPayload, AfterResponse, CountVerdict;
    CountingAggregates(s.tasks, n);
  }

  /** The only status a dispatcher turns into DELIVERING is that of tasks it has just created. */
  lemma DeliveringStartsPending(cfg: Config, s: State, d: nat, newTask: nat, n: nat)
    requires DispatchEnabled(cfg, s, d, newTask) && DispatcherOk(cfg, s, s.dispatchers[d]) && n in s.notifications
    ensures var s' := DispatchNext(cfg, s, d, newTask);
            && n in s'.notifications
            && (s'.notifications[n].status == Delivering && AllTerminal(s.tasks, n) ==>
                s.notifications[n].status == Delivering)
  {
    hide DispatcherAfter, InsertSucceeds, TasksAfterDispatch;
    var m, stage := s.dispatchers[d].notification, s.dispatchers[d].stage;
    if stage.MarkDelivering? {
      assert Fresh(s, m, stage.created[0]);
      assert !AllTerminal(s.tasks, m);
    }
  }

  lemma DispatchNeverStrands(cfg: Config, s: State, d: nat, newTask: nat, n: nat)
    requires DispatchEnabled(cfg, s, d, newTask) && Structure(cfg, s) && !Stranded(s, n) && n in s.notifications
    ensures !Stranded(DispatchNext(cfg, s, d, newTask), n)
  {
    var s' := DispatchNext(cfg, s, d, newTask);
    assert s'.workers == s.workers;
    DispatcherIsOk(cfg, s, d);
    DeliveringStartsPending(cfg, s, d, newTask, n);
    DispatchSparesOutcomes(cfg, s, d, newTask);
    if SameOutcomes(s.tasks, s'.tasks, n) {
      AggregateSame(s.tasks, s'.tasks, n);
      hide Structure, DispatcherOk, DispatchedOk, DispatchNext, AllTerminal, SameOutcomes;
    } else {
      InsertTargetsPending(cfg, s, d);
      hide Structure, DispatcherOk, DispatchedOk, DispatcherAfter, AllTerminal, SameOutcomes, InsertSucceeds;
      assert s'.notifications == s.notifications;
    }
  }

  /** A failing call strands a notification exactly when its worker was the last to resolve it. */
  lemma FaultStrandsIff(s: State, w: nat, n: nat)
    requires WorkEnabled(s, w) && !Stranded(s, n)
    ensures Stranded(WorkFault(s, w), n) <==> LastResolver(s, w, n)
  {
    var s' := WorkFault(s, w);
    hide AllTerminal;
    assert !Resolving(s.workers[w], n) || !Resolving(s'.workers[w], n);
    if Resolved(s, n) && !LastResolver(s, w, n) && Unfinished(s, n) && AllTerminal(s.tasks, n) {
      if Resolving(s.workers[w], n) {
        var v :| v in s.workers && Resolving(s.workers[v], n) && v != w;
        assert v in s'.workers && Resolving(s'.workers[v], n);
      } else {
        var v :| v in s.workers && Resolving(s.workers[v], n);
        assert v in s'.workers && Resolving(s'.workers[v], n);
      }
    }
  }

  /** Steps that write no row and move no busy worker. */
  predicate Idles(a: Action) {
    a.PublishTrigger? || a.Receive? || a.DispatcherCrash? || a.Take? || a.Expire? || (a.Dispatch? && !a.ok)
  }

  lemma IdlesMoveNothing(cfg: Config, s: State, a: Action)
    requires Enabled(cfg, s, a) && Idles(a)
    ensures var s' := Next(cfg, s, a);
            && s'.notifications == s.notifications && s'.tasks == s.tasks
            && (forall w :: w in s.workers && s.workers[w].Busy? ==> w in s'.workers && s'.workers[w] == s.workers[w])
            && (forall w :: w in s'.workers && s'.workers[w].Busy? ==>
                  (w in s.workers && s'.workers[w] == s.workers[w]) || s'.workers[w].stage.GetTask?)
  {
    IdlesKeepRows(cfg, s, a);
    IdlesKeepWorkers(cfg, s, a);
    hide Next, Enabled;
  }

  lemma IdlesKeepRows(cfg: Config, s: State, a: Action)
    requires Enabled(cfg, s, a) && Idles(a)
    ensures Next(cfg, s, a).notifications == s.notifications && Next(cfg, s, a).tasks == s.tasks
  {
    hide DispatchNext, WorkNext, WorkFault, CrashNext, TakeNext, ExpireNext, DispatchFault, DispatchEnabled;
    if a.Take? {
      TakeSparesRows(s, a.worker, a.task);
    } else if a.Expire? {
      ExpireSparesRows(s, a.task);
    } else if a.Dispatch? || a.DispatcherCrash? {
      DispatchFaultSparesRows(s, a.dispatcher);
    }
  }

  lemma TakeSparesRows(s: State, w: nat, t: nat)
    ensures var s' := TakeNext(s, w, t);
            s'.notifications == s.notifications && s'.tasks == s.tasks && s'.history == s.history
  {
  }

  lemma ExpireSparesRows(s: State, t: nat)
    ensures var s' := ExpireNext(s, t);
            s'.notifications == s.notifications && s'.tasks == s.tasks && s'.history == s.history
  {
  }

  lemma DispatchFaultSparesRows(s: State, d: nat)
    ensures DispatchFault(s, d).notifications == s.notifications && DispatchFault(s, d).tasks == s.tasks
  {
  }

  lemma CrashSparesRows(s: State, w: nat)
    requires WorkEnabled(s, w)
    ensures CrashNext(s, w).tasks == s.tasks && CrashNext(s, w).history.published == s.history.published
  {
  }

  /** Only `Take` moves a worker, and one that was idle. */
  lemma IdlesKeepWorkers(cfg: Config, s: State, a: Action)
    requires Enabled(cfg, s, a) && Idles(a)
    ensures var s' := Next(cfg, s, a);
            if a.Take? then
              && a.worker in s.workers && s.workers[a.worker].Idle?
              && s'.workers == s.workers[a.worker := Busy(a.task, GetTask)]
            else s'.workers == s.workers
  {
    hide DispatchNext, WorkNext, WorkFault, CrashNext, DispatchEnabled;
  }

  lemma IdlesStrandNothing(cfg: Config, s: State, a: Action, n: nat)
    requires Enabled(cfg, s, a) && Idles(a)
    ensures Stranded(Next(cfg, s, a), n) <==> Stranded(s, n)
  {
    var s' := Next(cfg, s, a);
    IdlesMoveNothing(cfg, s, a);
    hide Next, Enabled, AllTerminal;
    if Resolved(s, n) {
      var w :| w in s.workers && Resolving(s.workers[w], n);
      assert Resolving(s'.workers[w], n);
    }
    if Resolved(s', n) {
      var w :| w in s'.workers && Resolving(s'.workers[w], n);
      assert Resolving(s.workers[w], n);
    }
  }

  /** The crash of a worker that holds another notification's task. */
  lemma CrashStrandsNothing(cfg: Config, s: State, w: nat, n: nat)
    requires WorkEnabled(s, w) && SnapshotOk(cfg, s, s.workers[w].task, s.workers[w].stage)
    requires Untouched(CrashNext(s, w), n)
    ensures Stranded(CrashNext(s, w), n) <==> Stranded(s, n)
  {
    var s' := CrashNext(s, w);
    assert s.workers[w].task in s'.history.redelivered && s'.tasks == s.tasks;
    assert !Resolving(s.workers[w], n);
    hide AllTerminal, SnapshotOk, Untouched;
    if Resolved(s, n) {
      var v :| v in s.workers && Resolving(s.workers[v], n);
      assert Resolving(s'.workers[v], n);
    }
  }

  /** All tasks of `n` being terminal, a worker that is not resolving `n` writes none of them and does not start. */
  lemma WorkLeavesStranded(cfg: Config, s: State, w: nat, built: bool, outcome: Outcome, n: nat)
    requires WorkEnabled(s, w) && Stranded(s, n)
    requires SnapshotOk(cfg, s, s.workers[w].task, s.workers[w].stage)
    requires s.tasks[s.workers[w].task].notification == n ==> TokenOk(s, s.workers[w].task)
    ensures Stranded(WorkNext(cfg, s, w, built, outcome), n)
  {
    var s', t := WorkNext(cfg, s, w, built, outcome), s.workers[w].task;
    WorkChangesOutcome(cfg, s, w, built, outcome, n);
    assert SameOutcomes(s.tasks, s'.tasks, n);
    AggregateSame(s.tasks, s'.tasks, n);
    assert !Resolving(s.workers[w], n);
    if s.tasks[t].notification == n { assert !Active(s.workers[w], t); }
    assert n in s'.notifications && s'.notifications[n] == s.notifications[n];
    hide Aggregate, AllTerminal, TokenOk, CountVerdict, AfterPayload, AfterResponse;
    assert !Resolving(s'.workers[w], n);
    assert s'.workers == s.workers[w := s'.workers[w]];
    hide WorkNext, SnapshotOk;
    assert forall v :: v in s'.workers && v != w ==> v in s.workers && s'.workers[v] == s.workers[v];
  }

  lemma FaultLeavesStranded(cfg: Config, s: State, w: nat, n: nat)
    requires WorkEnabled(s, w) && Stranded(s, n)
    requires SnapshotOk(cfg, s, s.workers[w].task, s.workers[w].stage)
    requires s.tasks[s.workers[w].task].notification == n ==> TokenOk(s, s.workers[w].task)
    ensures Stranded(WorkFault(s, w), n)
  {
    var s', t := WorkFault(s, w), s.workers[w].task;
    assert !Resolving(s.workers[w], n);
    if s.tasks[t].notification == n { assert !Active(s.workers[w], t); }
    hide TokenOk;
    assert !Resolving(s'.workers[w], n);
    hide AllTerminal, SnapshotOk;
    assert forall v :: v in s'.workers && v != w ==> v in s.workers && s'.workers[v] == s.workers[v];
  }

  /** A dispatcher touches only notifications that are PENDING or have no vendors. */
  lemma DispatchLeavesStranded(cfg: Config, s: State, d: nat, newTask: nat, n: nat)
    requires DispatchEnabled(cfg, s, d, newTask) && Structure(cfg, s) && Stranded(s, n)
    ensures Stranded(DispatchNext(cfg, s, d, newTask), n)
  {
    var s', m, stage := DispatchNext(cfg, s, d, newTask), s.dispatchers[d].notification, s.dispatchers[d].stage;
    DispatcherIsOk(cfg, s, d);
    DispatchSparesOutcomes(cfg, s, d, newTask);
    if stage.InsertTask? {
      if InsertSucceeds(cfg, s, m, stage.created) { InsertTargetsPending(cfg, s, d); }
    }
    assert SameOutcomes(s.tasks, s'.tasks, n);
    AggregateSame(s.tasks, s'.tasks, n);
    assert stage.MarkFailed? || stage.MarkDelivering? ==> m != n;
    hide Structure, DispatcherOk, DispatchedOk, DispatcherAfter, TasksAfterDispatch, AllTerminal, SameOutcomes,
        InsertSucceeds;
    assert s'.workers == s.workers && n in s'.notifications && s'.notifications[n] == s.notifications[n];
  }

  /**
    While none of its tasks is redelivered, a notification is stranded by exactly one kind of step,
    a failing call of the last worker resolving it, and stays stranded.
   */
  lemma StepStrandsIff(cfg: Config, s: State, a: Action, n: nat)
    requires Structure(cfg, s) && Tokens(s) && Enabled(cfg, s, a) && Untouched(Next(cfg, s, a), n)
    ensures Stranded(Next(cfg, s, a), n) <==> Stranded(s, n) || Strands(s, a, n)
  {
    hide Stranded, LastResolver, DispatchNext, WorkNext, WorkFault, CrashNext, DispatchEnabled;
    if Idles(a) {
      IdlesStrandNothing(cfg, s, a, n);
    } else {
      match a {
        case Arrive(_, _) => ArrivalsStrandNothing(cfg, s, a, n);
        case Work(w, ok, built, outcome) => WorkStrandsIff(cfg, s, a, n);
        case Dispatch(d, _, newTask) => DispatchStrandsNothing(cfg, s, d, newTask, n);
        case WorkerCrash(w) =>
          WorkerIsOk(cfg, s, w);
          CrashStrandsNothing(cfg, s, w, n);
      }
    }
  }

  lemma ArrivalsStrandNothing(cfg: Config, s: State, a: Action, n: nat)
    requires Enabled(cfg, s, a) && a.Arrive?
    ensures Stranded(Next(cfg, s, a), n) <==> Stranded(s, n)
  {
    hide AllTerminal;
    assert Resolved(Next(cfg, s, a), n) <==> Resolved(s, n);
  }

  lemma DispatchStrandsNothing(cfg: Config, s: State, d: nat, newTask: nat, n: nat)
    requires Structure(cfg, s) && DispatchEnabled(cfg, s, d, newTask)
    ensures Stranded(DispatchNext(cfg, s, d, newTask), n) <==> Stranded(s, n)
  {
    if Stranded(s, n) { DispatchLeavesStranded(cfg, s, d, newTask, n); }
    DispatchAddsNoNotification(cfg, s, d, newTask);
    if n in s.notifications && !Stranded(s, n) { DispatchNeverStrands(cfg, s, d, newTask, n); }
    hide Structure, DispatchNext, DispatchEnabled;
  }

  lemma DispatchAddsNoNotification(cfg: Config, s: State, d: nat, newTask: nat)
    requires DispatchEnabled(cfg, s, d, newTask)
    ensures DispatchNext(cfg, s, d, newTask).notifications.Keys == s.notifications.Keys
  {
    hide DispatcherAfter, TasksAfterDispatch;
  }

  lemma WorkStrandsIff(cfg: Config, s: State, a: Action, n: nat)
    requires Structure(cfg, s) && Tokens(s) && Enabled(cfg, s, a) && a.Work? && Untouched(Next(cfg, s, a), n)
    ensures Stranded(Next(cfg, s, a), n) <==> Stranded(s, n) || Strands(s, a, n)
  {
    var w := a.worker;
    WorkerIsOk(cfg, s, w);
    OwnTokenIsOk(cfg, s, a, n);
    hide Structure, Tokens, TokenOk, SnapshotOk, Stranded, LastResolver, WorkNext, WorkFault;
    if !a.ok {
      FaultStrandsOrLeaves(cfg, s, w, n);
    } else if Stranded(s, n) {
      WorkLeavesStranded(cfg, s, w, a.built, a.outcome, n);
    } else if n in s.notifications {
      WorkNeverStrands(cfg, s, w, a.built, a.outcome, n);
    } else {
      UnknownIsNotStranded(cfg, s, a, n);
    }
  }

  lemma FaultStrandsOrLeaves(cfg: Config, s: State, w: nat, n: nat)
    requires WorkEnabled(s, w) && SnapshotOk(cfg, s, s.workers[w].task, s.workers[w].stage)
    requires s.tasks[s.workers[w].task].notification == n ==> TokenOk(s, s.workers[w].task)
    ensures Stranded(WorkFault(s, w), n) <==> Stranded(s, n) || LastResolver(s, w, n)
  {
    if Stranded(s, n) {
      FaultLeavesStranded(cfg, s, w, n);
    } else {
      FaultStrandsIff(s, w, n);
    }
  }

  lemma UnknownIsNotStranded(cfg: Config, s: State, a: Action, n: nat)
    requires Enabled(cfg, s, a) && a.Work? && n !in s.notifications
    ensures !Stranded(Next(cfg, s, a), n)
  {
    hide WorkerAfter, TasksAfterWork;
  }

  /** The worker's own task, if it belongs to a notification that stays untouched, was not redelivered. */
  lemma OwnTokenIsOk(cfg: Config, s: State, a: Action, n: nat)
    requires Structure(cfg, s) && Tokens(s) && Enabled(cfg, s, a) && a.Work? && Untouched(Next(cfg, s, a), n)
    ensures s.workers[a.worker].task in s.tasks
    ensures s.tasks[s.workers[a.worker].task].notification == n ==> TokenOk(s, s.workers[a.worker].task)
  {
    WorkerIsOk(cfg, s, a.worker);
    StepGrows(cfg, s, a);
    StepRedelivers(cfg, s, a);
    GrowingTouches(s, Next(cfg, s, a));
    hide Next, Structure, TokenOk;
  }

  lemma StepRedelivers(cfg: Config, s: State, a: Action)
    requires Enabled(cfg, s, a)
    ensures Next(cfg, s, a).history.redelivered ==
              s.history.redelivered + if a.WorkerCrash? then {s.workers[a.worker].task} else {}
  {
    hide WorkerAfter, DispatcherAfter, TasksAfterWork, TasksAfterDispatch, NotificationsAfterDispatch,
        NotificationsAfterWork;
    hide RetryQueueAfterWork, StageAfterFault, DispatchEnabled;
  }

  // ---------------------------------------------------------------- redelivered tasks included

  /** The last resolver fails or crashes. */
  ghost predicate Shakes(s: State, a: Action, n: nat) {
    ((a.Work? && !a.ok) || a.WorkerCrash?) && LastResolver(s, a.worker, n)
  }

  /** A worker that was handed one of its tasks again gets behind the terminal write: it will resolve. */
  predicate Frees(s: State, a: Action, n: nat) {
    && a.Work? && WorkEnabled(s, a.worker)
    && (s.workers[a.worker].stage.MarkSucceeded? || (a.ok && s.workers[a.worker].stage.MarkDeadLetter?))
    && s.workers[a.worker].stage.row.notification == n
  }

  /** A worker starts to resolve exactly there. */
  lemma StartsToResolve(cfg: Config, s: State, w: nat, built: bool, outcome: Outcome, n: nat)
    requires WorkEnabled(s, w) && !Resolving(s.workers[w], n)
    ensures var s' := WorkNext(cfg, s, w, built, outcome);
            Resolving(s'.workers[w], n) <==>
              (s.workers[w].stage.MarkSucceeded? || s.workers[w].stage.MarkDeadLetter?)
              && s.workers[w].stage.row.notification == n
  {
    hide CountVerdict;
  }

  lemma WorkStrandsExactly(cfg: Config, s: State, w: nat, built: bool, outcome: Outcome, n: nat)
    requires Structure(cfg, s) && WorkEnabled(s, w)
    ensures Stranded(WorkNext(cfg, s, w, built, outcome), n) <==>
              Stranded(s, n) && !Frees(s, Work(w, true, built, outcome), n)
  {
    WorkerIsOk(cfg, s, w);
    WorkGrows(cfg, s, w, built, outcome);
    WorkKnowsTasks(cfg, s, w, built, outcome);
    hide Structure, SnapshotOk, Grows, WorkNext, AllTerminal;
    if Stranded(s, n) {
      StartsToResolve(cfg, s, w, built, outcome, n);
      TerminalStays(s, WorkNext(cfg, s, w, built, outcome), n);
      WriteSpares(cfg, s, w, built, outcome, n);
      SameResolvers(s, WorkNext(cfg, s, w, built, outcome), w, n);
    } else if n in s.notifications {
      WorkNeverStrands(cfg, s, w, built, outcome, n);
    }
  }

  lemma WorkKnowsTasks(cfg: Config, s: State, w: nat, built: bool, outcome: Outcome)
    requires WorkEnabled(s, w)
    ensures var s' := WorkNext(cfg, s, w, built, outcome);
            && s'.tasks.Keys == s.tasks.Keys && s'.notifications.Keys == s.notifications.Keys
            && w in s'.workers && s'.workers == s.workers[w := s'.workers[w]]
  {
    hide WorkerAfter;
  }

  lemma TerminalStays(s: State, s': State, n: nat)
    requires Grows(s, s') && s'.tasks.Keys == s.tasks.Keys && AllTerminal(s.tasks, n)
    ensures AllTerminal(s'.tasks, n)
  {
    forall t | t in s'.tasks && s'.tasks[t].notification == n ensures Terminal(s'.tasks[t].status) {
      assert SameTask(s.tasks[t], s'.tasks[t]);
    }
  }

  lemma WriteSpares(cfg: Config, s: State, w: nat, built: bool, outcome: Outcome, n: nat)
    requires WorkEnabled(s, w) && !Resolving(s.workers[w], n) && n in s.notifications
    ensures var s' := WorkNext(cfg, s, w, built, outcome);
            n in s'.notifications && s'.notifications[n] == s.notifications[n]
  {
    hide WorkerAfter, TasksAfterWork;
  }

  lemma SameResolvers(s: State, s': State, w: nat, n: nat)
    requires w in s'.workers && s'.workers == s.workers[w := s'.workers[w]] && !Resolved(s, n)
    ensures Resolved(s', n) <==> Resolving(s'.workers[w], n)
  {
  }

  lemma FaultStrandsExactly(cfg: Config, s: State, w: nat, n: nat)
    requires Structure(cfg, s) && WorkEnabled(s, w)
    ensures var a := Work(w, false, true, NetworkError);
            Stranded(WorkFault(s, w), n) <==> (Stranded(s, n) && !Frees(s, a, n)) || LastResolver(s, w, n)
  {
    if Stranded(s, n) {
      var s' := WorkFault(s, w);
      assert !Resolving(s.workers[w], n);
      assert Resolving(s'.workers[w], n) <==>
          s.workers[w].stage.MarkSucceeded? && s.workers[w].stage.row.notification == n;
      hide Structure, AllTerminal, Resolving;
      SameResolvers(s, s', w, n);
    } else {
      hide Structure;
      FaultStrandsIff(s, w, n);
    }
  }

  lemma CrashStrandsExactly(s: State, w: nat, n: nat)
    requires WorkEnabled(s, w)
    ensures Stranded(CrashNext(s, w), n) <==> Stranded(s, n) || LastResolver(s, w, n)
  {
    var s' := CrashNext(s, w);
    assert !Resolving(s'.workers[w], n);
    hide AllTerminal, Resolving;
    if Resolved(s, n) && !LastResolver(s, w, n) && Unfinished(s, n) && AllTerminal(s.tasks, n) {
      if Resolving(s.workers[w], n) {
        var v :| v in s.workers && Resolving(s.workers[v], n) && v != w;
        assert v in s'.workers && Resolving(s'.workers[v], n);
      } else {
        var v :| v in s.workers && Resolving(s.workers[v], n);
        assert v in s'.workers && Resolving(s'.workers[v], n);
      }
    }
  }

  /** Whatever was redelivered: exactly these steps strand a notification, and exactly these free it. */
  lemma StepStrandsExactly(cfg: Config, s: State, a: Action, n: nat)
    requires Structure(cfg, s) && Enabled(cfg, s, a)
    ensures Stranded(Next(cfg, s, a), n) <==> (Stranded(s, n) && !Frees(s, a, n)) || Shakes(s, a, n)
  {
    hide Structure, Stranded, LastResolver, DispatchNext, WorkNext, WorkFault, CrashNext, DispatchEnabled;
    if Idles(a) {
      IdlesStrandNothing(cfg, s, a, n);
    } else if a.Arrive? {
      ArrivalsStrandNothing(cfg, s, a, n);
    } else if a.Dispatch? {
      DispatchStrandsNothing(cfg, s, a.dispatcher, a.newTask, n);
    } else if a.WorkerCrash? {
      CrashStrandsExactly(s, a.worker, n);
    } else if a.ok {
      WorkStrandsExactly(cfg, s, a.worker, a.built, a.outcome, n);
    } else {
      FaultStrandsExactly(cfg, s, a.worker, n);
    }
  }
}
