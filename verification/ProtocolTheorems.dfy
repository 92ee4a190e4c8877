/** What holds in every state of every run of the delivery protocol. */
module ProtocolTheorems {
  import opened Protocol
  import opened ProtocolInvariants
  import opened ProtocolTokens
  import opened ProtocolVerdict
  import opened ProtocolStranding
  import opened ProtocolAbandoning
  import opened ProtocolLife

  ghost predicate Inv(cfg: Config, s: State) {
    Structure(cfg, s) && NotLost(s) && Tokens(s) && Verdicts(cfg, s)
  }

  // ---------------------------------------------------------------- the invariant is kept

  lemma HistoryRemembers(cfg: Config, s: State, a: Action)
    requires Enabled(cfg, s, a)
    ensures Next(cfg, s, a).history.faulted <==>
              s.history.faulted || a.DispatcherCrash? || (a.Dispatch? && !a.ok) || (a.Work? && !a.ok)
  {
    hide WorkerAfter, DispatcherAfter, TasksAfterWork, TasksAfterDispatch, NotificationsAfterDispatch;
    hide NotificationsAfterWork, RetryQueueAfterWork, HistoryAfterWork, StageAfterFault, DispatchEnabled;
    if a.Work? && a.ok {
      WorkRemembers(s.history, s.workers[a.worker].task, s.workers[a.worker].stage, a.outcome);
    }
  }

  lemma WorkRemembers(h: History, t: nat, stage: WorkerStage, outcome: Outcome)
    ensures HistoryAfterWork(h, t, stage, outcome).faulted == h.faulted
  {
  }

  /** Steps without a part in any token: arrivals, triggers and failing dispatchers. */
  predicate Tokenless(a: Action) {
    a.Arrive? || a.PublishTrigger? || a.Receive? || a.DispatcherCrash? || (a.Dispatch? && !a.ok)
  }

  /** The token of a task survives every step but the crash of a worker that holds the task itself. */
  lemma TokenKept(cfg: Config, s: State, a: Action, t: nat)
    requires Structure(cfg, s) && TokenOk(s, t) && Enabled(cfg, s, a)
    requires a.WorkerCrash? ==> s.workers[a.worker].task != t
    ensures TokenOk(Next(cfg, s, a), t)
  {
    hide Structure, TokenOk, DispatchNext, WorkNext, WorkFault, TakeNext, ExpireNext, CrashNext;
    if Tokenless(a) {
      SameToken(s, Next(cfg, s, a), t) by { TokenlessMoves(cfg, s, a); }
    } else if a.Dispatch? {
      DispatcherIsOk(cfg, s, a.dispatcher);
      StructureParts(cfg, s);
      DispatchKeepsToken(cfg, s, a.dispatcher, a.newTask, t);
    } else if a.Work? {
      WorkerIsOk(cfg, s, a.worker);
      WorkedIsPublished(cfg, s, a.worker);
      if a.ok { WorkKeepsToken(cfg, s, a.worker, a.built, a.outcome, t); }
          else { FaultKeepsToken(cfg, s, a.worker, t); }
    } else if a.Take? {
      TakeKeepsToken(s, a.worker, a.task, t);
    } else if a.Expire? {
      ExpireKeepsToken(s, a.task, t);
    } else {
      CrashKeepsToken(s, a.worker, t);
    }
  }

  lemma StructureParts(cfg: Config, s: State)
    requires Structure(cfg, s)
    ensures PublishedOk(s) && WorkersOk(cfg, s)
  {
  }

  lemma WorkedIsPublished(cfg: Config, s: State, w: nat)
    requires Structure(cfg, s) && WorkEnabled(s, w)
    ensures s.workers[w].task in s.history.published
  {
  }

  lemma TokenlessMoves(cfg: Config, s: State, a: Action)
    requires Enabled(cfg, s, a) && Tokenless(a)
    ensures var s' := Next(cfg, s, a);
            && s'.workers == s.workers && s'.tasks == s.tasks
            && s'.deliveryQueue == s.deliveryQueue && s'.retryQueue == s.retryQueue
            && s'.history.calls == s.history.calls && s'.history.attempts == s.history.attempts
            && s'.history.published == s.history.published
  {
  }

  lemma SameToken(s: State, s': State, t: nat)
    requires TokenOk(s, t)
    requires s'.workers == s.workers && s'.tasks == s.tasks
    requires s'.deliveryQueue == s.deliveryQueue && s'.retryQueue == s.retryQueue
    requires s'.history.calls == s.history.calls && s'.history.attempts == s.history.attempts
    requires s'.history.published == s.history.published
    ensures TokenOk(s', t)
  {
  }

  lemma TokensKept(cfg: Config, s: State, a: Action)
    requires Structure(cfg, s) && Tokens(s) && Enabled(cfg, s, a)
    ensures Tokens(Next(cfg, s, a))
  {
    hide Structure, TokenOk, Next, Enabled;
    StepRedelivers(cfg, s, a);
    forall t: nat | t !in Next(cfg, s, a).history.redelivered ensures TokenOk(Next(cfg, s, a), t) {
      TokenKept(cfg, s, a, t);
    }
  }

  lemma SameVerdicts(cfg: Config, s: State, s': State)
    requires Verdicts(cfg, s) && s'.tasks == s.tasks && UntouchedBefore(s, s')
    requires forall n :: n in s'.notifications ==>
               || (n in s.notifications && s'.notifications[n] == s.notifications[n])
               || !Final(s'.notifications[n].status)
    requires forall w :: w in s'.workers && s'.workers[w].Busy? && s'.workers[w].stage.WriteStatus? ==>
               w in s.workers && s'.workers[w] == s.workers[w]
    ensures Verdicts(cfg, s')
  {
    hide Untouched;
    forall n | n in s'.notifications ensures StatusOk(cfg, s', n) {
      if Final(s'.notifications[n].status) && Untouched(s', n) { assert StatusOk(cfg, s, n); }
    }
    forall w | w in s'.workers ensures VerdictOk(s', s'.workers[w]) {
      if Undecided(s', s'.workers[w]) { assert VerdictOk(s, s.workers[w]); }
    }
  }

  /** Everything but a successful call of a worker or a dispatcher. */
  predicate Sidelong(a: Action) {
    (a.Work? || a.Dispatch?) ==> !a.ok
  }

  lemma SidelongMoves(cfg: Config, s: State, a: Action)
    requires Enabled(cfg, s, a) && Sidelong(a)
    ensures var s' := Next(cfg, s, a);
            && s'.tasks == s.tasks
            && (forall n :: n in s'.notifications ==>
                  || (n in s.notifications && s'.notifications[n] == s.notifications[n])
                  || !Final(s'.notifications[n].status))
            && (forall w :: w in s'.workers && s'.workers[w].Busy? && s'.workers[w].stage.WriteStatus? ==>
                  w in s.workers && s'.workers[w] == s.workers[w])
  {
    hide Next, Enabled;
    if Idles(a) {
      IdlesMoveNothing(cfg, s, a);
    } else if a.Arrive? {
      ArriveMoves(cfg, s, a);
    } else if a.Work? {
      FaultMoves(cfg, s, a);
    } else {
      CrashMoves(cfg, s, a);
    }
  }

  lemma ArriveMoves(cfg: Config, s: State, a: Action)
    requires Enabled(cfg, s, a) && a.Arrive?
    ensures var s' := Next(cfg, s, a);
            && s'.tasks == s.tasks && s'.workers == s.workers
            && a.notification !in s.notifications
            && s'.notifications == s.notifications[a.notification := Notification(a.eventType, Pending)]
  {
  }

  /** No failing call leads to the status write. */
  lemma FaultMoves(cfg: Config, s: State, a: Action)
    requires Enabled(cfg, s, a) && a.Work? && !a.ok
    ensures var s', w := Next(cfg, s, a), a.worker;
            && s'.tasks == s.tasks && s'.notifications == s.notifications
            && w in s'.workers && s'.workers == s.workers[w := s'.workers[w]]
            && s'.workers[w].Busy? && !s'.workers[w].stage.WriteStatus?
  {
    hide WorkNext;
  }

  lemma CrashMoves(cfg: Config, s: State, a: Action)
    requires Enabled(cfg, s, a) && a.WorkerCrash?
    ensures var s', w := Next(cfg, s, a), a.worker;
            && s'.tasks == s.tasks && s'.notifications == s.notifications
            && s'.workers == s.workers[w := Idle]
  {
  }

  lemma SidelongKeepsVerdicts(cfg: Config, s: State, a: Action)
    requires Verdicts(cfg, s) && Enabled(cfg, s, a) && Sidelong(a)
    ensures Verdicts(cfg, Next(cfg, s, a))
  {
    hide Verdicts, Next, Enabled;
    SidelongMoves(cfg, s, a);
    StepRedelivers(cfg, s, a);
    GrowingTouches(s, Next(cfg, s, a));
    SameVerdicts(cfg, s, Next(cfg, s, a));
  }

  lemma VerdictsKept(cfg: Config, s: State, a: Action)
    requires Structure(cfg, s) && Tokens(s) && Verdicts(cfg, s) && Enabled(cfg, s, a)
    ensures Verdicts(cfg, Next(cfg, s, a))
  {
    hide Structure, Tokens, Verdicts, DispatchNext, WorkNext, DispatchEnabled;
    if Sidelong(a) {
      SidelongKeepsVerdicts(cfg, s, a);
    } else if a.Work? {
      StructureParts(cfg, s);
      StepGrows(cfg, s, a);
      WorkKeepsVerdicts(cfg, s, a.worker, a.built, a.outcome);
    } else {
      DispatchKeepsVerdicts(cfg, s, a.dispatcher, a.newTask);
    }
  }

  lemma InvKept(cfg: Config, s: State, a: Action)
    requires Inv(cfg, s) && Enabled(cfg, s, a)
    ensures Inv(cfg, Next(cfg, s, a))
  {
    hide Structure, NotLost, Tokens, Verdicts, Next, Enabled;
    StructureKept(cfg, s, a);
    NotLostKept(cfg, s, a);
    TokensKept(cfg, s, a);
    VerdictsKept(cfg, s, a);
  }

  lemma InvInitially(cfg: Config, s: State)
    requires Init(s)
    ensures Inv(cfg, s)
  {
    StructureInitially(cfg, s);
  }

  /** The invariant holds throughout every run: any interleaving, any failing calls, any crashes. */
  lemma {:induction false} InvInRuns(cfg: Config, r: Run, i: nat)
    requires IsRun(cfg, r) && i < |r.states|
    ensures Inv(cfg, r.states[i])
  {
    if i == 0 {
      InvInitially(cfg, r.states[0]);
    } else {
      InvInRuns(cfg, r, i - 1);
      assert Enabled(cfg, r.states[i - 1], r.actions[i - 1]);
      InvKept(cfg, r.states[i - 1], r.actions[i - 1]);
    }
  }

  // ---------------------------------------------------------------- runs step by step

  lemma RunLength(cfg: Config, r: Run)
    requires IsRun(cfg, r)
    ensures |r.states| == |r.actions| + 1
  {
  }

  lemma RunStep(cfg: Config, r: Run, i: nat)
    requires IsRun(cfg, r) && i < |r.actions|
    ensures |r.states| == |r.actions| + 1
    ensures Enabled(cfg, r.states[i], r.actions[i]) && r.states[i + 1] == Next(cfg, r.states[i], r.actions[i])
  {
    hide Enabled, Next, Init;
  }

  lemma RunStepGrows(cfg: Config, r: Run, i: nat)
    requires IsRun(cfg, r) && i < |r.actions|
    ensures Grows(r.states[i], r.states[i + 1]) && UntouchedBefore(r.states[i], r.states[i + 1])
    ensures r.states[i].history.redelivered <= r.states[i + 1].history.redelivered
  {
    var s, a := r.states[i], r.actions[i];
    InvInRuns(cfg, r, i);
    RunStep(cfg, r, i);
    hide IsRun, Next, Enabled, Structure, NotLost, Tokens, Verdicts;
    StepGrows(cfg, s, a);
    StepRedelivers(cfg, s, a);
    GrowingTouches(s, r.states[i + 1]);
  }

  /** What was not redelivered later was not redelivered earlier. */
  lemma {:induction false} RunGrows(cfg: Config, r: Run, i: nat, j: nat)
    requires IsRun(cfg, r) && i <= j < |r.states|
    ensures UntouchedBefore(r.states[i], r.states[j])
    ensures r.states[i].history.redelivered <= r.states[j].history.redelivered
    ensures r.states[i].history.published <= r.states[j].history.published
    ensures r.states[i].tasks.Keys <= r.states[j].tasks.Keys
    decreases j
  {
    hide IsRun, Untouched;
    RunLength(cfg, r);
    if i < j {
      RunGrows(cfg, r, i, j - 1);
      RunStepGrows(cfg, r, j - 1);
    }
  }

  // ---------------------------------------------------------------- the last finisher resolves

  /** Some step before state `i` was a failing call of the last worker resolving `n`. */
  ghost predicate WasStranded(r: Run, i: nat, n: nat) {
    exists k :: 0 <= k < i && k < |r.actions| && k < |r.states| && Strands(r.states[k], r.actions[k], n)
  }

  /**
    In every interleaving, and whatever crashes with other notifications' tasks: a DELIVERING
    notification whose tasks are all terminal has a worker between its terminal write and its status
    write, unless, exactly, the dead-letter insert, the count or the status write of the last such
    worker failed before. Any other failing call is healed or harmless.
   */
  lemma LastFinisherResolves(cfg: Config, r: Run, i: nat, n: nat)
    requires IsRun(cfg, r) && i < |r.states| && Untouched(r.states[i], n)
    requires Unfinished(r.states[i], n) && AllTerminal(r.states[i].tasks, n)
    ensures Resolved(r.states[i], n) <==> !WasStranded(r, i, n)
  {
    hide IsRun, Untouched, AllTerminal;
    StrandedIff(cfg, r, i, n);
  }

  lemma {:induction false} StrandedIff(cfg: Config, r: Run, i: nat, n: nat)
    requires IsRun(cfg, r) && i < |r.states| && Untouched(r.states[i], n)
    ensures Stranded(r.states[i], n) <==> WasStranded(r, i, n)
  {
    hide Stranded, Strands, Untouched;
    if i == 0 {
      NobodyStrandedAtFirst(cfg, r, n);
    } else {
      RunStepGrows(cfg, r, i - 1);
      StrandedIff(cfg, r, i - 1, n);
      RunStepStrands(cfg, r, i - 1, n);
      assert WasStranded(r, i, n) <==> WasStranded(r, i - 1, n) || Strands(r.states[i - 1], r.actions[i - 1], n);
    }
  }

  lemma NobodyStrandedAtFirst(cfg: Config, r: Run, n: nat)
    requires IsRun(cfg, r)
    ensures !Stranded(r.states[0], n)
  {
  }

  lemma RunStepStrands(cfg: Config, r: Run, i: nat, n: nat)
    requires IsRun(cfg, r) && i < |r.actions| && Untouched(r.states[i + 1], n)
    ensures Stranded(r.states[i + 1], n) <==> Stranded(r.states[i], n) || Strands(r.states[i], r.actions[i], n)
  {
    InvInRuns(cfg, r, i);
    RunStep(cfg, r, i);
    hide IsRun, Next, Enabled, Structure, NotLost, Tokens, Verdicts, Stranded, Strands, Untouched;
    StepStrandsIff(cfg, r.states[i], r.actions[i], n);
  }

  /** A stranded notification stays so until a worker crashes with one of its own tasks. */
  lemma StrandedForGood(cfg: Config, r: Run, i: nat, j: nat, n: nat)
    requires IsRun(cfg, r) && i <= j < |r.states| && Untouched(r.states[j], n) && Stranded(r.states[i], n)
    ensures Stranded(r.states[j], n)
  {
    hide IsRun, Untouched, Stranded, Strands;
    RunGrows(cfg, r, i, j);
    StrandedIff(cfg, r, i, n);
    StrandedIff(cfg, r, j, n);
  }

  /** Nothing is left to do: no program counter is inside a call and no live message waits. */
  ghost predicate Quiescent(s: State) {
    && (forall w :: w in s.workers ==> s.workers[w].Idle?)
    && (forall d :: d in s.dispatchers ==> s.dispatchers[d].Waiting?)
    && (forall t: nat :: LiveMessages(s, t) == 0)
  }

  // ---------------------------------------------------------------- creation given up halfway

  /** Some step before state `i` was the owner of tasks of PENDING `n` failing, crashing, or meeting a duplicate. */
  ghost predicate WasAbandoned(cfg: Config, r: Run, i: nat, n: nat) {
    exists k :: 0 <= k < i && k < |r.actions| && k < |r.states| && Abandons(cfg, r.states[k], r.actions[k], n)
  }

  /** A notification is PENDING with a task and no dispatcher at work exactly after such a step. */
  lemma {:induction false} AbandonedIff(cfg: Config, r: Run, i: nat, n: nat)
    requires IsRun(cfg, r) && i < |r.states|
    ensures Abandoned(r.states[i], n) <==> WasAbandoned(cfg, r, i, n)
  {
    hide Abandoned, Abandons;
    if i == 0 {
      NobodyAbandonedAtFirst(cfg, r, n);
    } else {
      RunLength(cfg, r);
      AbandonedIff(cfg, r, i - 1, n);
      RunStepAbandons(cfg, r, i - 1, n);
      assert WasAbandoned(cfg, r, i, n) <==>
        WasAbandoned(cfg, r, i - 1, n) || Abandons(cfg, r.states[i - 1], r.actions[i - 1], n);
    }
  }

  lemma NobodyAbandonedAtFirst(cfg: Config, r: Run, n: nat)
    requires IsRun(cfg, r)
    ensures !Abandoned(r.states[0], n)
  {
  }

  lemma RunStepAbandons(cfg: Config, r: Run, i: nat, n: nat)
    requires IsRun(cfg, r) && i < |r.actions|
    ensures Abandoned(r.states[i + 1], n) <==> Abandoned(r.states[i], n) || Abandons(cfg, r.states[i], r.actions[i], n)
  {
    InvInRuns(cfg, r, i);
    RunStep(cfg, r, i);
    hide IsRun, Next, Enabled, Structure, NotLost, Tokens, Verdicts, Abandoned, Abandons;
    StepAbandonsIff(cfg, r.states[i], r.actions[i], n);
  }

  /** It stays PENDING for good, under any faults, crashes, repeated triggers and other dispatchers. */
  lemma AbandonedForGood(cfg: Config, r: Run, i: nat, j: nat, n: nat)
    requires IsRun(cfg, r) && i <= j < |r.states| && Abandoned(r.states[i], n)
    ensures Abandoned(r.states[j], n) && r.states[j].notifications[n].status == Pending
  {
    AbandonedIff(cfg, r, i, n);
    AbandonedIff(cfg, r, j, n);
    hide IsRun, Abandons;
  }

  /**
    Conversely, without failing calls and with rules that name no vendor twice, a PENDING
    notification with a task has a dispatcher at work on it.
   */
  lemma CleanPendingIsOwned(cfg: Config, r: Run, i: nat, n: nat)
    requires IsRun(cfg, r) && i < |r.states| && !r.states[i].history.faulted
    requires IsPending(r.states[i], n) && NoDuplicates(VendorsOf(cfg, r.states[i].notifications, n))
    ensures HasTask(r.states[i].tasks, n) ==> !Unowned(r.states[i], n)
    ensures Quiescent(r.states[i]) ==> !HasTask(r.states[i].tasks, n)
  {
    AbandonedIff(cfg, r, i, n);
    RunLength(cfg, r);
    hide IsRun, Abandons, HasTask;
    forall k | 0 <= k < i && k < |r.actions| && k < |r.states| ensures !Abandons(cfg, r.states[k], r.actions[k], n) {
      CleanStepAbandonsNot(cfg, r, k, i, n);
    }
    hide Unowned;
    if Quiescent(r.states[i]) { IdleDispatchersOwnNothing(r.states[i], n); }
  }

  lemma IdleDispatchersOwnNothing(s: State, n: nat)
    requires Quiescent(s)
    ensures Unowned(s, n)
  {
  }

  lemma CleanStepAbandonsNot(cfg: Config, r: Run, k: nat, i: nat, n: nat)
    requires IsRun(cfg, r) && k < i < |r.states| && !r.states[i].history.faulted && n in r.states[i].notifications
    requires NoDuplicates(VendorsOf(cfg, r.states[i].notifications, n))
    ensures k < |r.actions| && !Abandons(cfg, r.states[k], r.actions[k], n)
  {
    var s, a := r.states[k], r.actions[k];
    InvInRuns(cfg, r, k);
    RunStep(cfg, r, k);
    RunFaults(cfg, r, k + 1, i);
    if n in s.notifications { StatusNeverGoesBack(cfg, r, k, i, n); }
    hide IsRun, Next, NoDuplicates, NotLost, Tokens, Verdicts, Structure, InsertSucceeds;
    HistoryRemembers(cfg, s, a);
    hide Enabled;
    if a.Dispatch? && IsPending(s, n) && Enabled(cfg, s, a) { OwnerMeetsNoDuplicate(cfg, s, a, n); }
  }

  lemma OwnerMeetsNoDuplicate(cfg: Config, s: State, a: Action, n: nat)
    requires Structure(cfg, s) && Enabled(cfg, s, a) && a.Dispatch? && NoDuplicates(VendorsOf(cfg, s.notifications, n))
    ensures Owns(s.dispatchers[a.dispatcher], n) ==> !Duplicates(cfg, s, a.dispatcher, a.newTask)
  {
    hide Structure, NoDuplicates, Duplicates;
    if Owns(s.dispatchers[a.dispatcher], n) { DistinctRulesMeetNoDuplicate(cfg, s, a.dispatcher, a.newTask); }
  }

  lemma {:induction false} RunFaults(cfg: Config, r: Run, i: nat, j: nat)
    requires IsRun(cfg, r) && i <= j < |r.states|
    ensures r.states[i].history.faulted ==> r.states[j].history.faulted
    decreases j
  {
    hide IsRun, Next, Enabled;
    RunLength(cfg, r);
    if i < j {
      RunFaults(cfg, r, i, j - 1);
      RunStep(cfg, r, j - 1);
      HistoryRemembers(cfg, r.states[j - 1], r.actions[j - 1]);
    }
  }

  // ---------------------------------------------------------------- the final status is right and permanent

  /** The status a step may give a notification, and when. */
  predicate LegalMove(before: NotificationStatus, after: NotificationStatus, routed: bool) {
    || before == after
    || (before == Pending && !routed && after == Failed)
    || (before == Pending && routed && after == Delivering)
    || (before == Delivering && Final(after))
  }

  /** A worker writes a verdict that differs from the final status already there. */
  predicate Overwrites(s: State, a: Action, n: nat) {
    && n in s.notifications && Final(s.notifications[n].status)
    && a.Work? && a.ok && WorkEnabled(s, a.worker) && s.workers[a.worker].stage.WriteStatus?
    && s.workers[a.worker].stage.row.notification == n
    && s.workers[a.worker].stage.verdict != s.notifications[n].status
  }

  /** Whoever writes a status writes a final one, over that of a notification that was routed and dispatched. */
  lemma WriterIsLegal(cfg: Config, s: State, w: nat)
    requires Structure(cfg, s) && WorkEnabled(s, w) && s.workers[w].stage.WriteStatus?
    ensures var n := s.workers[w].stage.row.notification;
            && Final(s.workers[w].stage.verdict)
            && n in s.notifications && s.notifications[n].status != Pending && VendorsOf(cfg, s.notifications, n) != []
  {
    WorkerIsOk(cfg, s, w);
    StructureParts(cfg, s);
    WriterTargetsDispatched(cfg, s);
    RowsHaveVendors(cfg, s);
    assert s.workers[w].task in s.tasks;
    hide Structure, WorkersOk, PublishedOk, VendorsOf;
  }

  lemma WorkMovesLegally(cfg: Config, s: State, a: Action, n: nat)
    requires Structure(cfg, s) && Enabled(cfg, s, a) && a.Work? && a.ok && n in s.notifications
    ensures n in Next(cfg, s, a).notifications
    ensures var before, after := s.notifications[n].status, Next(cfg, s, a).notifications[n].status;
            && (LegalMove(before, after, VendorsOf(cfg, s.notifications, n) != []) || Overwrites(s, a, n))
            && (Overwrites(s, a, n) ==> after != before)
  {
    hide Structure, Next, VendorsOf;
    WorkWritesStatus(cfg, s, a);
    if s.workers[a.worker].stage.WriteStatus? { WriterIsLegal(cfg, s, a.worker); }
  }

  lemma WorkWritesStatus(cfg: Config, s: State, a: Action)
    requires Enabled(cfg, s, a) && a.Work? && a.ok
    ensures WorkEnabled(s, a.worker)
    ensures Next(cfg, s, a).notifications == NotificationsAfterWork(s.notifications, s.workers[a.worker].stage)
  {
    hide WorkerAfter, TasksAfterWork, RetryQueueAfterWork, HistoryAfterWork, NotificationsAfterWork;
  }

  lemma DispatchMovesLegally(cfg: Config, s: State, d: nat, newTask: nat, n: nat)
    requires Structure(cfg, s) && DispatchEnabled(cfg, s, d, newTask) && n in s.notifications
    ensures n in DispatchNext(cfg, s, d, newTask).notifications
    ensures LegalMove(s.notifications[n].status, DispatchNext(cfg, s, d, newTask).notifications[n].status,
                      VendorsOf(cfg, s.notifications, n) != [])
    ensures Final(s.notifications[n].status) ==>
              DispatchNext(cfg, s, d, newTask).notifications[n].status == s.notifications[n].status
  {
    DispatcherIsOk(cfg, s, d);
    hide Structure, DispatcherAfter, TasksAfterDispatch, InsertSucceeds;
  }

  lemma StepMovesLegally(cfg: Config, s: State, a: Action, n: nat)
    requires Structure(cfg, s) && Enabled(cfg, s, a) && n in s.notifications
    ensures n in Next(cfg, s, a).notifications
    ensures var before, after := s.notifications[n].status, Next(cfg, s, a).notifications[n].status;
            && (LegalMove(before, after, VendorsOf(cfg, s.notifications, n) != []) || Overwrites(s, a, n))
            && (Overwrites(s, a, n) ==> after != before)
            && (Final(before) && after != before ==> Overwrites(s, a, n))
  {
    hide Structure, WorkNext, DispatchNext, VendorsOf, DispatchEnabled;
    if Sidelong(a) {
      SidelongKeepsStatus(cfg, s, a, n);
    } else if a.Work? {
      WorkMovesLegally(cfg, s, a, n);
    } else {
      DispatchMovesLegally(cfg, s, a.dispatcher, a.newTask, n);
    }
  }

  lemma SidelongKeepsStatus(cfg: Config, s: State, a: Action, n: nat)
    requires Enabled(cfg, s, a) && Sidelong(a) && n in s.notifications
    ensures n in Next(cfg, s, a).notifications && Next(cfg, s, a).notifications[n] == s.notifications[n]
  {
    hide DispatchNext, WorkNext, DispatchEnabled;
  }

  /**
    What is written over a final status is no aggregate: only a redelivered task of `n` itself can bring that
    about.
   */
  lemma OverwritingNeedsRedelivery(cfg: Config, s: State, a: Action, n: nat)
    requires Inv(cfg, s) && Overwrites(s, a, n)
    ensures !Untouched(s, n)
  {
    var w := a.worker;
    WorkerIsOk(cfg, s, w);
    RowsHaveVendors(cfg, s);
    assert VerdictOk(s, s.workers[w]) && StatusOk(cfg, s, n);
    hide Structure, NotLost, Tokens, Verdicts, Aggregate, Untouched, VendorsOf;
  }

  /** A status never moves backwards, in any run at all. */
  lemma {:induction false} StatusNeverGoesBack(cfg: Config, r: Run, i: nat, j: nat, n: nat)
    requires IsRun(cfg, r) && i <= j < |r.states| && n in r.states[i].notifications
    ensures n in r.states[j].notifications
    ensures r.states[j].notifications[n].eventType == r.states[i].notifications[n].eventType
    ensures Advances(r.states[i].notifications[n].status, r.states[j].notifications[n].status)
    decreases j
  {
    hide IsRun, Untouched;
    RunLength(cfg, r);
    if i < j {
      StatusNeverGoesBack(cfg, r, i, j - 1, n);
      RunStepGrows(cfg, r, j - 1);
    }
  }

  /**
    In any run a status moves PENDING to FAILED (no rules), PENDING to DELIVERING, DELIVERING to a
    final value, or is overwritten; a notification with no redelivered task is never overwritten.
   */
  lemma StatusMovesLegally(cfg: Config, r: Run, i: nat, n: nat)
    requires IsRun(cfg, r) && i < |r.actions| && n in r.states[i].notifications
    ensures n in r.states[i + 1].notifications
    ensures var before, after := r.states[i].notifications[n].status, r.states[i + 1].notifications[n].status;
            var eventType := r.states[i].notifications[n].eventType;
            var routed := eventType in cfg.routes && cfg.routes[eventType] != [];
            && (LegalMove(before, after, routed) || Overwrites(r.states[i], r.actions[i], n))
            && (Untouched(r.states[i], n) ==> LegalMove(before, after, routed))
  {
    InvInRuns(cfg, r, i);
    RunStep(cfg, r, i);
    hide IsRun, Next, Enabled, Structure, NotLost, Tokens, Verdicts, Untouched, Overwrites;
    StepMovesLegally(cfg, r.states[i], r.actions[i], n);
    if Overwrites(r.states[i], r.actions[i], n) { OverwritingNeedsRedelivery(cfg, r.states[i], r.actions[i], n); }
  }

  /**
    In any run a final status changes in a step exactly when that step is a worker writing a different
    verdict, and that takes a redelivered task of the notification itself.
   */
  lemma FinalStatusChangesIff(cfg: Config, r: Run, i: nat, n: nat)
    requires IsRun(cfg, r) && i < |r.actions|
    requires n in r.states[i].notifications && Final(r.states[i].notifications[n].status)
    ensures n in r.states[i + 1].notifications
    ensures r.states[i + 1].notifications[n].status != r.states[i].notifications[n].status <==>
              Overwrites(r.states[i], r.actions[i], n)
    ensures Overwrites(r.states[i], r.actions[i], n) ==> !Untouched(r.states[i], n)
  {
    InvInRuns(cfg, r, i);
    RunStep(cfg, r, i);
    hide IsRun, Next, Enabled, Structure, NotLost, Tokens, Verdicts, Untouched, Overwrites;
    StepMovesLegally(cfg, r.states[i], r.actions[i], n);
    if Overwrites(r.states[i], r.actions[i], n) { OverwritingNeedsRedelivery(cfg, r.states[i], r.actions[i], n); }
  }

  /**
    While none of its own tasks is redelivered, whatever else fails or crashes: the final value of a
    notification is the aggregate over all its tasks when it is written and in every later state.
   */
  lemma {:induction false} FinalStatusIsRightAndPermanent(cfg: Config, r: Run, i: nat, j: nat, n: nat)
    requires IsRun(cfg, r) && i <= j < |r.states| && Untouched(r.states[j], n)
    requires n in r.states[i].notifications && Final(r.states[i].notifications[n].status)
    ensures n in r.states[j].notifications && r.states[j].notifications[n].status == r.states[i].notifications[n].status
    ensures if VendorsOf(cfg, r.states[j].notifications, n) == []
            then r.states[j].notifications[n].status == Failed
            else
              && AllTerminal(r.states[j].tasks, n)
              && r.states[j].notifications[n].status == Aggregate(r.states[j].tasks, n)
    decreases j
  {
    hide IsRun, Untouched, AllTerminal, Aggregate, VendorsOf;
    RunLength(cfg, r);
    if i < j {
      RunGrows(cfg, r, j - 1, j);
      FinalStatusIsRightAndPermanent(cfg, r, i, j - 1, n);
      FinalStatusChangesIff(cfg, r, j - 1, n);
    }
    FinalIsAggregate(cfg, r, j, n);
  }

  lemma FinalIsAggregate(cfg: Config, r: Run, i: nat, n: nat)
    requires IsRun(cfg, r) && i < |r.states| && Untouched(r.states[i], n)
    requires n in r.states[i].notifications && Final(r.states[i].notifications[n].status)
    ensures if VendorsOf(cfg, r.states[i].notifications, n) == []
            then r.states[i].notifications[n].status == Failed
            else
              && AllTerminal(r.states[i].tasks, n)
              && r.states[i].notifications[n].status == Aggregate(r.states[i].tasks, n)
  {
    hide IsRun;
    InvInRuns(cfg, r, i);
    assert StatusOk(cfg, r.states[i], n);
  }

  // ---------------------------------------------------------------- nothing is lost, nothing is doubled

  /** Under any failing calls and any crashes a published task is never forgotten. */
  lemma PublishedTaskIsNotLost(cfg: Config, r: Run, i: nat, t: nat)
    requires IsRun(cfg, r) && i < |r.states| && t in r.states[i].history.published
    ensures var s := r.states[i];
            || (t in s.tasks && Terminal(s.tasks[t].status))
            || t in s.deliveryQueue
            || RetryMessage(t, true) in s.retryQueue || RetryMessage(t, false) in s.retryQueue
            || (exists w :: w in s.workers && s.workers[w].Busy? && s.workers[w].task == t)
            || t in s.history.accepted
  {
    hide IsRun;
    InvInRuns(cfg, r, i);
    hide Structure, Tokens, Verdicts;
    assert Found(r.states[i], t);
  }

  /** Redelivered triggers and concurrent dispatchers never give a vendor a second task. */
  lemma OneTaskPerVendor(cfg: Config, r: Run, i: nat, t: nat, u: nat)
    requires IsRun(cfg, r) && i < |r.states| && t in r.states[i].tasks && u in r.states[i].tasks && t != u
    requires r.states[i].tasks[t].notification == r.states[i].tasks[u].notification
    ensures r.states[i].tasks[t].vendor != r.states[i].tasks[u].vendor
  {
    hide IsRun;
    InvInRuns(cfg, r, i);
  }

  /**
    A dispatched notification has exactly one task for each vendor its rules name; a rule list
    that names a vendor twice therefore never gets its notification past PENDING.
   */
  lemma DispatchedTasksMatchRules(cfg: Config, r: Run, i: nat, n: nat)
    requires IsRun(cfg, r) && i < |r.states|
    requires n in r.states[i].notifications && r.states[i].notifications[n].status != Pending
    ensures var s := r.states[i];
            var eventType := s.notifications[n].eventType;
            var vendors := if eventType in cfg.routes then cfg.routes[eventType] else [];
            && NoDuplicates(vendors)
            && forall vendor ::
                 vendor in vendors <==>
                 exists t :: t in s.tasks && s.tasks[t].notification == n && s.tasks[t].vendor == vendor
  {
    hide IsRun;
    var s := r.states[i];
    InvInRuns(cfg, r, i);
    forall vendor ensures HasRow(s.tasks, n, vendor) <==> vendor in VendorsOf(cfg, s.notifications, n) {
      if vendor in VendorsOf(cfg, s.notifications, n) {
        var k :| 0 <= k < |VendorsOf(cfg, s.notifications, n)| && VendorsOf(cfg, s.notifications, n)[k] == vendor;
        assert HasRow(s.tasks, n, VendorsOf(cfg, s.notifications, n)[k]);
      }
    }
  }

  // ---------------------------------------------------------------- attempts are bounded

  /** In every run: at most MaxAttempts - 1 retries are ever stored. */
  lemma StoredRetriesAreBounded(cfg: Config, r: Run, i: nat, t: nat)
    requires IsRun(cfg, r) && i < |r.states| && t in r.states[i].tasks
    ensures r.states[i].tasks[t].retryCount <= RetryLimit(cfg, r.states[i].tasks[t])
  {
    hide IsRun;
    InvInRuns(cfg, r, i);
  }

  /**
    A task that was not redelivered gets at most max(1, MaxAttempts) vendor calls, and the delays
    scheduled for it are those of the attempts 1, 2, 3, ... in order, each once.
   */
  lemma AttemptsAreBounded(cfg: Config, r: Run, i: nat, t: nat)
    requires IsRun(cfg, r) && i < |r.states| && t in r.states[i].tasks && t !in r.states[i].history.redelivered
    ensures var s := r.states[i];
            && s.history.calls[t] <= RetryLimit(cfg, s.tasks[t]) + 1
            && |AttemptsOf(s.history, t)| <= RetryLimit(cfg, s.tasks[t])
            && AttemptsOf(s.history, t) == Upto(|AttemptsOf(s.history, t)|)
            && forall k :: 0 <= k < |AttemptsOf(s.history, t)| ==> AttemptsOf(s.history, t)[k] == k + 1
  {
    hide IsRun;
    InvInRuns(cfg, r, i);
    assert TokenOk(r.states[i], t);
  }
}
