/**
  When a notification comes to rest with a final status, and with which: exact conditions over runs
  with any failing calls and any crashes, for each notification by itself.
 */
module ProtocolOutcomes {
  import opened Protocol
  import opened ProtocolInvariants
  import opened ProtocolTokens
  import opened ProtocolVerdict
  import opened ProtocolStranding
  import opened ProtocolAbandoning
  import opened ProtocolLife
  import opened ProtocolSticking
  import opened ProtocolSending
  import opened ProtocolSettling
  import opened ProtocolTheorems

  // ---------------------------------------------------------------- since

  /** `on` happened at a step before `i`, and `off` has not since. */
  ghost predicate Since(on: nat -> bool, off: nat -> bool, i: nat) {
    exists k :: 0 <= k < i && on(k) && forall m :: k < m < i ==> !off(m)
  }

  lemma SinceStep(on: nat -> bool, off: nat -> bool, i: nat)
    ensures Since(on, off, i + 1) <==> on(i) || (Since(on, off, i) && !off(i))
  {
    if Since(on, off, i) && !off(i) {
      var k :| 0 <= k < i && on(k) && forall m :: k < m < i ==> !off(m);
      assert forall m :: k < m < i + 1 ==> !off(m);
    }
    if Since(on, off, i + 1) && !on(i) {
      var k :| 0 <= k < i + 1 && on(k) && forall m :: k < m < i + 1 ==> !off(m);
      assert forall m :: k < m < i ==> !off(m);
      assert !off(i);
    }
  }

  ghost function LosesAt(r: Run, t: nat): nat -> bool {
    (k: nat) => k < |r.actions| && k < |r.states| && Loses(r.states[k], r.actions[k], t)
  }

  ghost function RevivesAt(r: Run, t: nat): nat -> bool {
    (k: nat) => k < |r.actions| && k < |r.states| && Revives(r.states[k], r.actions[k], t)
  }

  ghost function UnsendsAt(r: Run, t: nat): nat -> bool {
    (k: nat) => k < |r.actions| && k < |r.states| && Unsends(r.states[k], r.actions[k], t)
  }

  ghost function KillsAt(r: Run, n: nat): nat -> bool {
    (k: nat) => k < |r.actions| && k < |r.states| && Kills(r.states[k], r.actions[k], n)
  }

  ghost function RescuesAt(r: Run, n: nat): nat -> bool {
    (k: nat) => k < |r.actions| && k < |r.states| && Rescues(r.states[k], r.actions[k], n)
  }

  ghost function ShakesAt(r: Run, n: nat): nat -> bool {
    (k: nat) => k < |r.actions| && k < |r.states| && Shakes(r.states[k], r.actions[k], n)
  }

  ghost function FreesAt(r: Run, n: nat): nat -> bool {
    (k: nat) => k < |r.actions| && k < |r.states| && Frees(r.states[k], r.actions[k], n)
  }

  ghost function Never(): nat -> bool { (k: nat) => false }

  /** A call of the task's last holder failed, and no worker has crashed with its message since. */
  ghost predicate Lost(r: Run, i: nat, t: nat) { Since(LosesAt(r, t), RevivesAt(r, t), i) }

  /** The publish of the task failed, or its dispatcher crashed before it. */
  ghost predicate LeftUnsent(r: Run, i: nat, t: nat) { Since(UnsendsAt(r, t), Never(), i) }

  /** A call of the last worker pursuing it failed, and no worker has crashed with one of its tasks since. */
  ghost predicate Killed(r: Run, i: nat, n: nat) { Since(KillsAt(r, n), RescuesAt(r, n), i) }

  /** The last resolver failed or crashed, and no worker has started to resolve since. */
  ghost predicate Shaken(r: Run, i: nat, n: nat) { Since(ShakesAt(r, n), FreesAt(r, n), i) }

  // ---------------------------------------------------------------- each exact over runs

  /** An open published task without a live message or holder: exactly the lost ones. */
  lemma {:induction false} StuckIff(cfg: Config, r: Run, i: nat, t: nat)
    requires IsRun(cfg, r) && i < |r.states|
    ensures Stuck(r.states[i], t) <==> Lost(r, i, t)
  {
    hide Stuck, Loses, Revives, IsRun, Since;
    if i == 0 {
      NothingAtFirst(cfg, r, t);
      NothingSince(LosesAt(r, t), RevivesAt(r, t));
    } else {
      StepOfRun(cfg, r, i - 1);
      StuckIff(cfg, r, i - 1, t);
      hide Enabled, Next, Structure;
      StepSticksIff(cfg, r.states[i - 1], r.actions[i - 1], t);
      SinceStep(LosesAt(r, t), RevivesAt(r, t), i - 1);
    }
  }

  lemma StepOfRun(cfg: Config, r: Run, i: nat)
    requires IsRun(cfg, r) && i + 1 < |r.states|
    ensures |r.states| == |r.actions| + 1 && Structure(cfg, r.states[i])
    ensures Enabled(cfg, r.states[i], r.actions[i]) && r.states[i + 1] == Next(cfg, r.states[i], r.actions[i])
  {
    hide IsRun, Enabled, Next, Structure, NotLost, Tokens, Verdicts;
    RunLength(cfg, r);
    RunStep(cfg, r, i);
    InvInRuns(cfg, r, i);
  }

  lemma NothingSince(on: nat -> bool, off: nat -> bool)
    ensures !Since(on, off, 0)
  {
  }

  lemma NothingAtFirst(cfg: Config, r: Run, x: nat)
    requires IsRun(cfg, r)
    ensures !Stuck(r.states[0], x) && !Unsent(r.states[0], x) && !Dead(r.states[0], x) && !Stranded(r.states[0], x)
  {
  }

  /** A task of a dispatched notification that nobody is going to publish: exactly those left unsent. */
  lemma {:induction false} UnsentIff(cfg: Config, r: Run, i: nat, t: nat)
    requires IsRun(cfg, r) && i < |r.states|
    ensures Unsent(r.states[i], t) <==> LeftUnsent(r, i, t)
  {
    hide Unsent, Unsends, IsRun, Since;
    if i == 0 {
      NothingAtFirst(cfg, r, t);
      NothingSince(UnsendsAt(r, t), Never());
    } else {
      StepOfRun(cfg, r, i - 1);
      UnsentIff(cfg, r, i - 1, t);
      hide Enabled, Next, Structure;
      StepUnsendsIff(cfg, r.states[i - 1], r.actions[i - 1], t);
      SinceStep(UnsendsAt(r, t), Never(), i - 1);
    }
  }

  /** A DELIVERING notification with terminal tasks only that nothing pursues: exactly the killed ones. */
  lemma {:induction false} DeadIff(cfg: Config, r: Run, i: nat, n: nat)
    requires IsRun(cfg, r) && i < |r.states|
    ensures Dead(r.states[i], n) <==> Killed(r, i, n)
  {
    hide Dead, Kills, Rescues, IsRun, Since;
    if i == 0 {
      NothingAtFirst(cfg, r, n);
      NothingSince(KillsAt(r, n), RescuesAt(r, n));
    } else {
      StepOfRun(cfg, r, i - 1);
      DeadIff(cfg, r, i - 1, n);
      hide Enabled, Next, Structure;
      StepKillsIff(cfg, r.states[i - 1], r.actions[i - 1], n);
      SinceStep(KillsAt(r, n), RescuesAt(r, n), i - 1);
    }
  }

  /** A notification without a resolver, redelivered tasks included: exactly the shaken ones. */
  lemma {:induction false} StrandedSinceIff(cfg: Config, r: Run, i: nat, n: nat)
    requires IsRun(cfg, r) && i < |r.states|
    ensures Stranded(r.states[i], n) <==> Shaken(r, i, n)
  {
    hide Stranded, Shakes, Frees, IsRun, Since;
    if i == 0 {
      NothingAtFirst(cfg, r, n);
      NothingSince(ShakesAt(r, n), FreesAt(r, n));
    } else {
      StepOfRun(cfg, r, i - 1);
      StrandedSinceIff(cfg, r, i - 1, n);
      hide Enabled, Next, Structure;
      StepStrandsExactly(cfg, r.states[i - 1], r.actions[i - 1], n);
      SinceStep(ShakesAt(r, n), FreesAt(r, n), i - 1);
    }
  }

  // ---------------------------------------------------------------- what is final covers terminal tasks

  /** Where a worker about to write a status comes from. */
  lemma WritersAfter(cfg: Config, s: State, a: Action, w: nat)
    requires Enabled(cfg, s, a) && w in Next(cfg, s, a).workers
    requires Next(cfg, s, a).workers[w].Busy? && Next(cfg, s, a).workers[w].stage.WriteStatus?
    ensures || (w in s.workers && Next(cfg, s, a).workers[w] == s.workers[w])
            || (Counts(s, a, w, Next(cfg, s, a).workers[w].stage.row.notification)
                && Next(cfg, s, a).workers[w].stage.verdict
                   == CountVerdict(s.tasks, Next(cfg, s, a).workers[w].stage.row.notification))
  {
    hide CountVerdict;
    if Sidelong(a) {
      SidelongMoves(cfg, s, a);
      hide Next, Enabled;
    } else if a.Dispatch? {
      DispatchMovesNoWorker(cfg, s, a.dispatcher, a.newTask);
      hide DispatchNext;
    } else {
      WorkKnowsTasks(cfg, s, a.worker, a.built, a.outcome);
      if w == a.worker {
        WorkCounts(cfg, s, w, a.built, a.outcome);
      }
      hide WorkNext;
    }
  }

  /** Worker `w` counts the tasks of `n` and finds them all terminal. */
  predicate Counts(s: State, a: Action, w: nat, n: nat) {
    && a.Work? && a.ok && a.worker == w && WorkEnabled(s, w) && s.workers[w].stage.CountTasks?
    && s.workers[w].stage.row.notification == n && CountVerdict(s.tasks, n) != Delivering
  }

  /** A worker writes the status of `n`. */
  predicate Writes(s: State, a: Action, n: nat) {
    && a.Work? && a.ok && WorkEnabled(s, a.worker) && s.workers[a.worker].stage.WriteStatus?
    && s.workers[a.worker].stage.row.notification == n
  }

  lemma WorkCounts(cfg: Config, s: State, w: nat, built: bool, outcome: Outcome)
    requires WorkEnabled(s, w)
    ensures var pc := WorkNext(cfg, s, w, built, outcome).workers[w];
            pc.Busy? && pc.stage.WriteStatus? ==>
              && s.workers[w].stage.CountTasks? && pc.stage.row == s.workers[w].stage.row
              && pc.stage.verdict == CountVerdict(s.tasks, pc.stage.row.notification) && pc.stage.verdict != Delivering
  {
    hide CountVerdict;
  }

  /** Where a final status comes from. */
  lemma FinalsAfter(cfg: Config, s: State, a: Action, n: nat)
    requires Structure(cfg, s) && Enabled(cfg, s, a)
    requires n in Next(cfg, s, a).notifications && Final(Next(cfg, s, a).notifications[n].status)
    requires VendorsOf(cfg, Next(cfg, s, a).notifications, n) != []
    ensures n in s.notifications && VendorsOf(cfg, s.notifications, n) != []
    ensures if Writes(s, a, n) then Next(cfg, s, a).notifications[n].status == s.workers[a.worker].stage.verdict
            else Next(cfg, s, a).notifications[n].status == s.notifications[n].status
  {
    hide Structure, Next, Enabled;
    if n !in s.notifications { OnlyArrivalsAdd(cfg, s, a, n); }
    StepGrowsKeys(cfg, s, a, n);
    if Sidelong(a) {
      SidelongKeepsStatus(cfg, s, a, n);
    } else if a.Work? {
      WorkWritesStatus(cfg, s, a);
    } else {
      DispatchersWriteNoFinal(cfg, s, a, n);
    }
  }

  lemma StepGrowsKeys(cfg: Config, s: State, a: Action, n: nat)
    requires Structure(cfg, s) && Enabled(cfg, s, a) && n in s.notifications
    ensures n in Next(cfg, s, a).notifications
    ensures Next(cfg, s, a).notifications[n].eventType == s.notifications[n].eventType
  {
    StepGrows(cfg, s, a);
    hide Structure, Next, Enabled;
  }

  /** A dispatcher gives a final status only to notifications without vendors. */
  lemma DispatchersWriteNoFinal(cfg: Config, s: State, a: Action, n: nat)
    requires Structure(cfg, s) && Enabled(cfg, s, a) && a.Dispatch? && a.ok && n in s.notifications
    requires n in Next(cfg, s, a).notifications && Final(Next(cfg, s, a).notifications[n].status)
    requires VendorsOf(cfg, s.notifications, n) != []
    ensures Next(cfg, s, a).notifications[n].status == s.notifications[n].status
  {
    DispatcherIsOk(cfg, s, a.dispatcher);
    hide Structure, DispatcherAfter, TasksAfterDispatch, InsertSucceeds;
  }

  lemma OnlyArrivalsAdd(cfg: Config, s: State, a: Action, n: nat)
    requires Enabled(cfg, s, a) && n in Next(cfg, s, a).notifications && n !in s.notifications
    ensures Next(cfg, s, a).notifications[n].status == Pending
  {
    hide WorkerAfter, DispatcherAfter, TasksAfterWork, TasksAfterDispatch, HistoryAfterWork;
  }

  lemma CountedKept(cfg: Config, s: State, a: Action)
    requires Structure(cfg, s) && Enabled(cfg, s, a) && CountedOk(cfg, s)
    ensures CountedOk(cfg, Next(cfg, s, a))
  {
    var s' := Next(cfg, s, a);
    hide Structure, Next, Enabled, AllTerminal, VendorsOf;
    hide CountedOk;
    forall w | w in s'.workers && s'.workers[w].Busy? && s'.workers[w].stage.WriteStatus?
      ensures AllTerminal(s'.tasks, s'.workers[w].stage.row.notification)
    {
      WriterKeepsCount(cfg, s, a, w);
    }
    forall n | n in s'.notifications && Final(s'.notifications[n].status) && VendorsOf(cfg, s'.notifications, n) != []
      ensures AllTerminal(s'.tasks, n)
    {
      FinalKeepsCount(cfg, s, a, n);
    }
    CountedMeans(cfg, s');
  }

  lemma CountedMeans(cfg: Config, s: State)
    ensures CountedOk(cfg, s) <==>
      && (forall w :: w in s.workers && s.workers[w].Busy? && s.workers[w].stage.WriteStatus? ==>
            AllTerminal(s.tasks, s.workers[w].stage.row.notification))
      && (forall n ::
            n in s.notifications && Final(s.notifications[n].status) && VendorsOf(cfg, s.notifications, n) != [] ==>
              AllTerminal(s.tasks, n))
  {
  }

  lemma WriterKeepsCount(cfg: Config, s: State, a: Action, w: nat)
    requires Structure(cfg, s) && Enabled(cfg, s, a) && CountedOk(cfg, s) && w in Next(cfg, s, a).workers
    requires Next(cfg, s, a).workers[w].Busy? && Next(cfg, s, a).workers[w].stage.WriteStatus?
    ensures AllTerminal(Next(cfg, s, a).tasks, Next(cfg, s, a).workers[w].stage.row.notification)
  {
    hide Structure, Next, Enabled, AllTerminal, VendorsOf, CountVerdict;
    var n := Next(cfg, s, a).workers[w].stage.row.notification;
    WritersAfter(cfg, s, a, w);
    CountIsTerminal(s, n);
    ResolverIsDispatched(cfg, s, w);
    TerminalKept(cfg, s, a, n);
  }

  lemma FinalKeepsCount(cfg: Config, s: State, a: Action, n: nat)
    requires Structure(cfg, s) && Enabled(cfg, s, a) && CountedOk(cfg, s)
    requires n in Next(cfg, s, a).notifications && Final(Next(cfg, s, a).notifications[n].status)
    requires VendorsOf(cfg, Next(cfg, s, a).notifications, n) != []
    ensures AllTerminal(Next(cfg, s, a).tasks, n)
  {
    hide Structure, Next, Enabled, AllTerminal, VendorsOf;
    FinalsAfter(cfg, s, a, n);
    if Writes(s, a, n) { ResolverIsDispatched(cfg, s, a.worker); }
    TerminalKept(cfg, s, a, n);
  }

  lemma CountIsTerminal(s: State, n: nat)
    ensures CountVerdict(s.tasks, n) != Delivering ==> AllTerminal(s.tasks, n)
  {
    CountingAggregates(s.tasks, n);
    hide CountVerdict;
  }

  lemma ResolverIsDispatched(cfg: Config, s: State, w: nat)
    requires Structure(cfg, s) && WorkEnabled(s, w)
    requires s.workers[w].stage.CountTasks? || s.workers[w].stage.WriteStatus?
    ensures PastPending(s, s.workers[w].stage.row.notification)
  {
    WorkerIsOk(cfg, s, w);
    assert s.workers[w].task in s.history.published;
  }

  lemma {:induction false} CountedInRuns(cfg: Config, r: Run, i: nat)
    requires IsRun(cfg, r) && i < |r.states|
    ensures CountedOk(cfg, r.states[i]) && UnpublishedOpen(r.states[i])
  {
    hide CountedOk, UnpublishedOpen, IsRun;
    if i == 0 {
      CountedAtFirst(cfg, r);
    } else {
      StepOfRun(cfg, r, i - 1);
      CountedInRuns(cfg, r, i - 1);
      hide Enabled, Next, Structure;
      CountedKept(cfg, r.states[i - 1], r.actions[i - 1]);
      OpenKept(cfg, r.states[i - 1], r.actions[i - 1]);
    }
  }

  lemma CountedAtFirst(cfg: Config, r: Run)
    requires IsRun(cfg, r)
    ensures CountedOk(cfg, r.states[0]) && UnpublishedOpen(r.states[0])
  {
  }

  // ---------------------------------------------------------------- at rest

  /** Nothing is left to do for this notification. */
  ghost predicate AtRest(s: State, n: nat) {
    !Pursued(s, n) && forall t :: !Sending(s, n, t)
  }

  lemma RestIsTerminal(cfg: Config, s: State, n: nat)
    requires Structure(cfg, s) && PastPending(s, n) && AtRest(s, n)
    requires forall t :: t in s.tasks && s.tasks[t].notification == n ==> !Stuck(s, t) && !Unsent(s, t)
    ensures AllTerminal(s.tasks, n)
  {
    hide Structure;
    forall t | t in s.tasks && s.tasks[t].notification == n ensures Terminal(s.tasks[t].status) {
      assert !Sending(s, n, t) && !Unsent(s, t);
      if Live(s, t) { LifeIsPursuit(s, n, t); }
    }
  }

  lemma LifeIsPursuit(s: State, n: nat, t: nat)
    requires t in s.tasks && s.tasks[t].notification == n && Live(s, t)
    ensures Pursued(s, n)
  {
    hide Queued;
    if Queued(s, t) {
      assert Awaited(s, n);
    } else {
      var v :| v in s.workers && Active(s.workers[v], t);
      assert Concerns(s.tasks, s.workers[v], n);
    }
    hide Awaited, Concerns;
  }

  lemma ResolverIsPursuit(s: State, n: nat)
    ensures Resolved(s, n) ==> Pursued(s, n)
  {
    hide Awaited;
    if Resolved(s, n) {
      var w :| w in s.workers && Resolving(s.workers[w], n);
      assert Concerns(s.tasks, s.workers[w], n);
    }
    hide Concerns;
  }

  lemma FinalIsNotStuck(cfg: Config, s: State, n: nat)
    requires Structure(cfg, s) && UnpublishedOpen(s) && CountedOk(cfg, s) && PastPending(s, n)
    requires Final(s.notifications[n].status)
    ensures AllTerminal(s.tasks, n)
    ensures forall t :: t in s.tasks && s.tasks[t].notification == n ==> !Stuck(s, t) && !Unsent(s, t)
  {
    RowsHaveVendors(cfg, s);
    hide Structure, VendorsOf;
  }

  /**
    A dispatched notification for which nothing is left to do is final, with terminal tasks only,
    exactly when none of its tasks was lost or left unsent and it was not killed. Whatever fails or
    crashes elsewhere does not matter. The status is the aggregate if none of its tasks was redelivered.
   */
  lemma SettledIff(cfg: Config, r: Run, i: nat, n: nat)
    requires IsRun(cfg, r) && i < |r.states| && PastPending(r.states[i], n) && AtRest(r.states[i], n)
    ensures var s := r.states[i];
            Final(s.notifications[n].status) <==>
              (forall t :: t in s.tasks && s.tasks[t].notification == n ==> !Lost(r, i, t) && !LeftUnsent(r, i, t))
              && !Killed(r, i, n)
    ensures var s := r.states[i];
            Final(s.notifications[n].status) ==>
              && AllTerminal(s.tasks, n)
              && (Untouched(s, n) && VendorsOf(cfg, s.notifications, n) != [] ==>
                    s.notifications[n].status == Aggregate(s.tasks, n))
  {
    var s := r.states[i];
    InvInRuns(cfg, r, i);
    CountedInRuns(cfg, r, i);
    DeadIff(cfg, r, i, n);
    forall t ensures (Stuck(s, t) <==> Lost(r, i, t)) && (Unsent(s, t) <==> LeftUnsent(r, i, t)) {
      StuckIff(cfg, r, i, t);
      UnsentIff(cfg, r, i, t);
    }
    if Final(s.notifications[n].status) {
      FinalIsNotStuck(cfg, s, n);
      assert StatusOk(cfg, s, n);
    }
    hide IsRun, Structure, NotLost, Tokens, Verdicts, Stuck, Unsent, Lost, LeftUnsent, Killed;
    if (forall t :: t in s.tasks && s.tasks[t].notification == n ==> !Stuck(s, t) && !Unsent(s, t)) && !Dead(s, n) {
      RestIsTerminal(cfg, s, n);
    }
    hide AtRest, AllTerminal, Untouched, Pursued, Aggregate, VendorsOf;
  }

  // ---------------------------------------------------------------- without redelivery

  /** A call of a worker holding the task failed before state `i`. */
  ghost predicate Dropped(r: Run, i: nat, t: nat) {
    exists k :: 0 <= k < i && DropsAt(r, k, t)
  }

  predicate DropsAt(r: Run, k: nat, t: nat) {
    && k < |r.actions| && k < |r.states| && r.actions[k].Work? && !r.actions[k].ok
    && r.actions[k].worker in r.states[k].workers && Active(r.states[k].workers[r.actions[k].worker], t)
  }

  /** For a task that was not redelivered, any failing call of a holder loses it, and for good. */
  lemma {:induction false} LostIffDropped(cfg: Config, r: Run, i: nat, t: nat)
    requires IsRun(cfg, r) && i < |r.states| && t !in r.states[i].history.redelivered
    ensures Stuck(r.states[i], t) <==> Dropped(r, i, t)
  {
    hide Stuck, IsRun, DropsAt;
    if i == 0 {
      NothingAtFirst(cfg, r, t);
    } else {
      StepOfRun(cfg, r, i - 1);
      RunGrows(cfg, r, i - 1, i);
      LostIffDropped(cfg, r, i - 1, t);
      StepDropsIff(cfg, r, i - 1, t);
      assert Dropped(r, i, t) <==> Dropped(r, i - 1, t) || DropsAt(r, i - 1, t);
    }
  }

  lemma StepDropsIff(cfg: Config, r: Run, k: nat, t: nat)
    requires IsRun(cfg, r) && k < |r.actions| && k + 1 < |r.states| && t !in r.states[k + 1].history.redelivered
    ensures Stuck(r.states[k + 1], t) <==> Stuck(r.states[k], t) || DropsAt(r, k, t)
  {
    var s, a := r.states[k], r.actions[k];
    StepOfRun(cfg, r, k);
    RunGrows(cfg, r, k, k + 1);
    InvInRuns(cfg, r, k);
    assert TokenOk(s, t);
    hide IsRun, Next, Structure, NotLost, Tokens, Verdicts, Stuck, TokenOk, LastHolder;
    StepSticksIff(cfg, s, a, t);
    StepRedelivers(cfg, s, a);
    if a.Work? { HolderIsLast(s, a.worker, t); }
    hide Enabled, Active;
  }

  /**
    Without a redelivered task: a dispatched notification at rest is final with the aggregate of its
    tasks exactly when no call failed in the hands of a holder of one of them, each was published, and
    it was not stranded.
   */
  lemma UntouchedSettledIff(cfg: Config, r: Run, i: nat, n: nat)
    requires IsRun(cfg, r) && i < |r.states| && PastPending(r.states[i], n) && AtRest(r.states[i], n)
    requires Untouched(r.states[i], n) && VendorsOf(cfg, r.states[i].notifications, n) != []
    ensures var s := r.states[i];
            Final(s.notifications[n].status) && s.notifications[n].status == Aggregate(s.tasks, n) <==>
              (forall t :: t in s.tasks && s.tasks[t].notification == n ==> !Dropped(r, i, t) && !LeftUnsent(r, i, t))
              && !WasStranded(r, i, n)
  {
    var s := r.states[i];
    SettledIff(cfg, r, i, n);
    DeadIff(cfg, r, i, n);
    StrandedIff(cfg, r, i, n);
    RestIsDeadOrNot(s, n);
    forall t | t in s.tasks && s.tasks[t].notification == n ensures Lost(r, i, t) <==> Dropped(r, i, t) {
      StuckIff(cfg, r, i, t);
      assert t !in s.history.redelivered;
      LostIffDropped(cfg, r, i, t);
    }
    hide *;
  }

  lemma RestIsDeadOrNot(s: State, n: nat)
    requires AtRest(s, n)
    ensures Dead(s, n) <==> Stranded(s, n)
  {
    ResolverIsPursuit(s, n);
    hide AllTerminal, Pursued, Resolved, Sending;
  }

  // ---------------------------------------------------------------- without failing calls

  lemma QuiescenceIsRest(s: State, n: nat)
    requires Quiescent(s)
    ensures AtRest(s, n)
  {
    forall t: nat ensures !Queued(s, t) { QueuedIsCounted(s, t); }
    hide Queued;
  }

  lemma QueuedIsCounted(s: State, t: nat)
    ensures Queued(s, t) ==> LiveMessages(s, t) > 0
  {
  }

  /** A step that loses, leaves unsent or kills is a failing call or a dispatcher's crash. */
  lemma CleanStepsHarmNothing(cfg: Config, r: Run, i: nat, x: nat)
    requires IsRun(cfg, r) && i < |r.states| && !r.states[i].history.faulted
    ensures !Lost(r, i, x) && !LeftUnsent(r, i, x) && !Killed(r, i, x)
  {
    forall k | 0 <= k < i ensures !LosesAt(r, x)(k) && !UnsendsAt(r, x)(k) && !KillsAt(r, x)(k) {
      RunLength(cfg, r);
      RunFaults(cfg, r, k + 1, i);
      RunStep(cfg, r, k);
      HistoryRemembers(cfg, r.states[k], r.actions[k]);
      hide *;
      CleanStepHarmsNothing(r, k, x);
    }
  }

  lemma CleanStepHarmsNothing(r: Run, k: nat, x: nat)
    requires k < |r.actions|
    requires var a := r.actions[k]; !a.DispatcherCrash? && !(a.Dispatch? && !a.ok) && !(a.Work? && !a.ok)
    ensures !LosesAt(r, x)(k) && !UnsendsAt(r, x)(k) && !KillsAt(r, x)(k)
  {
  }

  /**
    Without failing calls, worker crashes or not, every dispatched notification ends with a final
    status; it is the aggregate of its tasks if none of them was redelivered.
   */
  lemma QuiescentMeansResolved(cfg: Config, r: Run, i: nat, n: nat)
    requires IsRun(cfg, r) && i < |r.states| && Quiescent(r.states[i]) && !r.states[i].history.faulted
    requires n in r.states[i].notifications && r.states[i].notifications[n].status != Pending
    ensures var s := r.states[i];
            && Final(s.notifications[n].status) && AllTerminal(s.tasks, n)
            && (Untouched(s, n) && VendorsOf(cfg, s.notifications, n) != [] ==>
                  s.notifications[n].status == Aggregate(s.tasks, n))
  {
    QuiescenceIsRest(r.states[i], n);
    forall x ensures !Lost(r, i, x) && !LeftUnsent(r, i, x) && !Killed(r, i, x) {
      CleanStepsHarmNothing(cfg, r, i, x);
    }
    assert PastPending(r.states[i], n);
    hide *;
    SettledIff(cfg, r, i, n);
  }

  // ---------------------------------------------------------------- redelivered or not: which aggregate

  /** A worker about to write a verdict counted it earlier, and it is the aggregate of that moment. */
  lemma {:induction false} VerdictWasCounted(cfg: Config, r: Run, i: nat, w: nat) returns (c: nat)
    requires IsRun(cfg, r) && i < |r.states| && WorkEnabled(r.states[i], w) && r.states[i].workers[w].stage.WriteStatus?
    ensures c < i && c < |r.actions|
    ensures var n := r.states[i].workers[w].stage.row.notification;
            && Counts(r.states[c], r.actions[c], w, n)
            && r.states[i].workers[w].stage.verdict == Aggregate(r.states[c].tasks, n)
  {
    hide IsRun, Next, Enabled, Structure, Aggregate, CountVerdict;
    if i == 0 {
      NobodyAtFirst(cfg, r, w);
    } else {
      StepOfRun(cfg, r, i - 1);
      WritersAfter(cfg, r.states[i - 1], r.actions[i - 1], w);
      if w in r.states[i - 1].workers && r.states[i].workers[w] == r.states[i - 1].workers[w] {
        c := VerdictWasCounted(cfg, r, i - 1, w);
      } else {
        c := i - 1;
        CountingAggregates(r.states[c].tasks, r.states[i].workers[w].stage.row.notification);
      }
    }
  }

  lemma NobodyAtFirst(cfg: Config, r: Run, w: nat)
    requires IsRun(cfg, r)
    ensures !WorkEnabled(r.states[0], w)
  {
  }

  /**
    In any run a final status is the aggregate as it stood when the last writer counted, at step `c`
    before its write at step `k`. It is the present aggregate if no outcome changed since that count.
   */
  lemma {:induction false} StatusIsTheCountedAggregate(cfg: Config, r: Run, i: nat, n: nat) returns (c: nat, k: nat)
    requires IsRun(cfg, r) && i < |r.states|
    requires n in r.states[i].notifications && Final(r.states[i].notifications[n].status)
    requires VendorsOf(cfg, r.states[i].notifications, n) != []
    ensures c < k < i && k < |r.actions| && Writes(r.states[k], r.actions[k], n)
    ensures Counts(r.states[c], r.actions[c], r.actions[k].worker, n)
    ensures forall m :: k < m < i && m < |r.actions| ==> !Writes(r.states[m], r.actions[m], n)
    ensures r.states[i].notifications[n].status == Aggregate(r.states[c].tasks, n)
    ensures SameOutcomes(r.states[c].tasks, r.states[i].tasks, n) ==>
              r.states[i].notifications[n].status == Aggregate(r.states[i].tasks, n)
  {
    hide IsRun, Next, Enabled, Structure, Aggregate, VendorsOf, SameOutcomes, Counts;
    if i == 0 {
      NothingStored(cfg, r, n);
    } else {
      StepOfRun(cfg, r, i - 1);
      FinalsAfter(cfg, r.states[i - 1], r.actions[i - 1], n);
      if Writes(r.states[i - 1], r.actions[i - 1], n) {
        k := i - 1;
        c := VerdictWasCounted(cfg, r, k, r.actions[k].worker);
      } else {
        c, k := StatusIsTheCountedAggregate(cfg, r, i - 1, n);
      }
      hide Writes, Final;
      if SameOutcomes(r.states[c].tasks, r.states[i].tasks, n) {
        AggregateSame(r.states[c].tasks, r.states[i].tasks, n);
      }
    }
  }

  lemma NothingStored(cfg: Config, r: Run, n: nat)
    requires IsRun(cfg, r)
    ensures n !in r.states[0].notifications
  {
  }
}
