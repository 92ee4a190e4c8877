/** Without a published trigger nothing ever happens to a notification. */
module ProtocolTriggering {
  import opened Protocol
  import opened ProtocolInvariants
  import opened ProtocolTokens
  import opened ProtocolVerdict
  import opened ProtocolStranding
  import opened ProtocolAbandoning
  import opened ProtocolLife
  import opened ProtocolSending
  import opened ProtocolTheorems

  /** The notification is as it arrived, and no dispatcher is at work on it. */
  ghost predicate Untried(s: State, n: nat) {
    && !PastPending(s, n) && !HasTask(s.tasks, n)
    && forall d :: d in s.dispatchers && s.dispatchers[d].Dispatching? ==> s.dispatchers[d].notification != n
  }

  ghost predicate TriggeredOk(s: State) {
    forall n: nat :: n !in s.triggers ==> Untried(s, n)
  }

  lemma WorkKeepsUntried(cfg: Config, s: State, w: nat, built: bool, outcome: Outcome, n: nat)
    requires Structure(cfg, s) && WorkEnabled(s, w) && Untried(s, n)
    ensures Untried(WorkNext(cfg, s, w, built, outcome), n)
    ensures WorkNext(cfg, s, w, built, outcome).triggers == s.triggers
  {
    var s' := WorkNext(cfg, s, w, built, outcome);
    WorkKeepsPast(cfg, s, w, built, outcome);
    WorkKeepsPending(cfg, s, w, built, outcome, n);
    assert s'.triggers == s.triggers;
    hide Structure, WorkNext, HasTask;
  }

  /** A dispatcher touches its own notification only. */
  lemma DispatchKeepsUntried(cfg: Config, s: State, d: nat, newTask: nat, n: nat)
    requires DispatchEnabled(cfg, s, d, newTask) && Untried(s, n)
    ensures Untried(DispatchNext(cfg, s, d, newTask), n)
    ensures DispatchNext(cfg, s, d, newTask).triggers == s.triggers
  {
    var s', m := DispatchNext(cfg, s, d, newTask), s.dispatchers[d].notification;
    assert m != n;
    DispatcherKeepsItsOwn(cfg, s, d, newTask);
    DispatchSparesRows(cfg, s, d, newTask, n);
    assert s'.triggers == s.triggers;
    hide DispatchNext, HasTask;
  }

  lemma DispatcherKeepsItsOwn(cfg: Config, s: State, d: nat, newTask: nat)
    requires DispatchEnabled(cfg, s, d, newTask)
    ensures var s' := DispatchNext(cfg, s, d, newTask);
            && d in s'.dispatchers && s'.dispatchers == s.dispatchers[d := s'.dispatchers[d]]
            && (s'.dispatchers[d].Dispatching? ==> s'.dispatchers[d].notification == s.dispatchers[d].notification)
  {
    hide TasksAfterDispatch, InsertSucceeds;
  }

  lemma DispatchSparesRows(cfg: Config, s: State, d: nat, newTask: nat, n: nat)
    requires DispatchEnabled(cfg, s, d, newTask) && s.dispatchers[d].notification != n
    requires !PastPending(s, n) && !HasTask(s.tasks, n)
    ensures var s' := DispatchNext(cfg, s, d, newTask);
            !PastPending(s', n) && !HasTask(s'.tasks, n)
  {
    hide DispatcherAfter, InsertSucceeds;
  }

  lemma OthersKeepUntried(cfg: Config, s: State, a: Action, n: nat)
    requires Enabled(cfg, s, a) && !(a.Work? && a.ok) && !(a.Dispatch? && a.ok) && Untried(s, n)
    requires a.Receive? ==> n != a.notification
    ensures Untried(Next(cfg, s, a), n)
    ensures s.triggers <= Next(cfg, s, a).triggers
  {
    var s' := Next(cfg, s, a);
    OthersKeepTasks(cfg, s, a);
    OthersKeepWork(cfg, s, a, n);
    OthersTrigger(cfg, s, a);
    hide Next, Enabled, HasTask;
  }

  lemma OthersTrigger(cfg: Config, s: State, a: Action)
    requires Enabled(cfg, s, a) && !(a.Work? && a.ok) && !(a.Dispatch? && a.ok)
    ensures s.triggers <= Next(cfg, s, a).triggers
  {
    hide DispatchNext, WorkNext, DispatchEnabled;
  }

  lemma OthersKeepWork(cfg: Config, s: State, a: Action, n: nat)
    requires Enabled(cfg, s, a) && !(a.Work? && a.ok) && !(a.Dispatch? && a.ok) && !PastPending(s, n)
    requires a.Receive? ==> n != a.notification
    requires forall d :: d in s.dispatchers && s.dispatchers[d].Dispatching? ==> s.dispatchers[d].notification != n
    ensures var s' := Next(cfg, s, a);
            && !PastPending(s', n)
            && forall d :: d in s'.dispatchers && s'.dispatchers[d].Dispatching? ==> s'.dispatchers[d].notification != n
  {
    hide DispatchNext, WorkNext, DispatchEnabled;
  }

  lemma TriggeredKept(cfg: Config, s: State, a: Action)
    requires Structure(cfg, s) && Enabled(cfg, s, a) && TriggeredOk(s)
    ensures TriggeredOk(Next(cfg, s, a)) && s.triggers <= Next(cfg, s, a).triggers
  {
    var s' := Next(cfg, s, a);
    hide Structure, Untried, DispatchNext, WorkNext, DispatchEnabled;
    TriggersStay(cfg, s, a);
    forall n: nat | n !in s'.triggers ensures Untried(s', n) {
      assert Untried(s, n);
      if a.Work? && a.ok {
        WorkKeepsUntried(cfg, s, a.worker, a.built, a.outcome, n);
      } else if a.Dispatch? && a.ok {
        DispatchKeepsUntried(cfg, s, a.dispatcher, a.newTask, n);
      } else {
        OthersKeepUntried(cfg, s, a, n);
      }
    }
  }

  /** A trigger is never taken back, and only triggers are received. */
  lemma TriggersStay(cfg: Config, s: State, a: Action)
    requires Enabled(cfg, s, a)
    ensures s.triggers <= Next(cfg, s, a).triggers
    ensures a.Receive? ==> a.notification in s.triggers
  {
    hide WorkerAfter, DispatcherAfter, TasksAfterWork, TasksAfterDispatch, HistoryAfterWork;
  }

  /**
    A notification whose trigger was not published up to state `i` was never received by a dispatcher:
    it is PENDING if it is stored, and has no task.
   */
  lemma {:induction false} UntriggeredIsUntried(cfg: Config, r: Run, i: nat, n: nat)
    requires IsRun(cfg, r) && i < |r.states| && n !in r.states[i].triggers
    ensures Untried(r.states[i], n)
    ensures forall k :: 0 <= k < i && k < |r.actions| && r.actions[k].Receive? ==> r.actions[k].notification != n
  {
    hide Untried, TriggeredOk;
    TriggeredInRuns(cfg, r, i);
    RunLength(cfg, r);
    TriggeredMeans(r.states[i], n);
    if i > 0 {
      RunStep(cfg, r, i - 1);
      TriggersStay(cfg, r.states[i - 1], r.actions[i - 1]);
      hide IsRun, Next, Enabled;
      UntriggeredIsUntried(cfg, r, i - 1, n);
    }
  }

  lemma TriggeredMeans(s: State, n: nat)
    requires TriggeredOk(s) && n !in s.triggers
    ensures Untried(s, n)
  {
  }

  lemma {:induction false} TriggeredInRuns(cfg: Config, r: Run, i: nat)
    requires IsRun(cfg, r) && i < |r.states|
    ensures TriggeredOk(r.states[i])
  {
    hide *;
    RunLength(cfg, r);
    if i == 0 {
      TriggeredAtFirst(cfg, r);
    } else {
      TriggeredInRuns(cfg, r, i - 1);
      RunStep(cfg, r, i - 1);
      RunIsStructured(cfg, r, i - 1);
      TriggeredKept(cfg, r.states[i - 1], r.actions[i - 1]);
    }
  }

  lemma RunIsStructured(cfg: Config, r: Run, i: nat)
    requires IsRun(cfg, r) && i < |r.states|
    ensures Structure(cfg, r.states[i])
  {
    InvInRuns(cfg, r, i);
    hide IsRun, Structure, NotLost, Tokens, Verdicts;
  }

  lemma TriggeredAtFirst(cfg: Config, r: Run)
    requires IsRun(cfg, r)
    ensures TriggeredOk(r.states[0])
  {
  }
}
