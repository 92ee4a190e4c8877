/**
  What every step keeps for a task whose message was never redelivered: it has at most one token (a
  live message, or a worker that may still write the task), so once terminal it is never written
  again. Crashes of workers that hold other tasks do not matter.
 */
module ProtocolTokens {
  import opened Protocol
  import opened ProtocolInvariants

  function LiveMessages(s: State, t: nat): nat {
    s.deliveryQueue[t] + s.retryQueue[RetryMessage(t, true)]
  }

  function Upto(k: nat): seq<nat> {
    seq(k, i requires 0 <= i => i + 1)
  }

  /** What the holder of the token of `t` knows about its row and its past. */
  predicate HolderOk(s: State, t: nat, stage: WorkerStage) {
    && t in s.tasks && s.tasks[t].status == TaskPending
    && (stage.PublishDelayed? ==> stage.row.retryCount + 1 == s.tasks[t].retryCount)
    && (HasSnapshot(stage) && !stage.PublishDelayed? ==> stage.row.retryCount == s.tasks[t].retryCount)
    && s.history.calls[t] <= s.tasks[t].retryCount
         + (if stage.MarkSucceeded? || stage.MarkDeadLetter? || stage.UpdateRetry? then 1 else 0)
    && AttemptsOf(s.history, t) == Upto(if stage.PublishDelayed? then stage.row.retryCount else s.tasks[t].retryCount)
  }

  predicate QueuedOk(s: State, t: nat) {
    && t in s.tasks && s.tasks[t].status == TaskPending
    && s.history.calls[t] <= s.tasks[t].retryCount
    && AttemptsOf(s.history, t) == Upto(s.tasks[t].retryCount)
  }

  predicate PastOk(s: State, t: nat) {
    if t in s.tasks then
      && s.history.calls[t] <= s.tasks[t].retryCount + 1
      && |AttemptsOf(s.history, t)| <= s.tasks[t].retryCount
      && AttemptsOf(s.history, t) == Upto(|AttemptsOf(s.history, t)|)
      && (t !in s.history.published ==>
            s.history.calls[t] == 0 && AttemptsOf(s.history, t) == [] && s.tasks[t].retryCount == 0)
    else
      s.history.calls[t] == 0 && AttemptsOf(s.history, t) == []
  }

  predicate InsertOk(s: State, t: nat, pc: Worker) {
    pc.Busy? && pc.task == t && pc.stage.InsertDeadLetter? ==> t in s.tasks && s.tasks[t].status == TaskDeadLetter
  }

  ghost predicate TokenOk(s: State, t: nat) {
    && LiveMessages(s, t) <= 1
    && (Queued(s, t) ==> QueuedOk(s, t))
    && (forall w :: w in s.workers && Active(s.workers[w], t) ==> !Queued(s, t) && HolderOk(s, t, s.workers[w].stage))
    && (forall v, w ::
          v in s.workers && w in s.workers && Active(s.workers[v], t) && Active(s.workers[w], t) ==> v == w)
    && (forall w :: w in s.workers ==> InsertOk(s, t, s.workers[w]))
    && PastOk(s, t)
  }

  ghost predicate Tokens(s: State) {
    forall t: nat :: t !in s.history.redelivered ==> TokenOk(s, t)
  }

  // ---------------------------------------------------------------- the token of one task

  /** The acting worker loses or keeps its hold; everything about the token of `t` stands. */
  lemma TokenFrame(s: State, s': State, w: nat, t: nat)
    requires TokenOk(s, t)
    requires forall v :: v in s'.workers && v != w ==> v in s.workers && s'.workers[v] == s.workers[v]
    requires w in s'.workers && Active(s'.workers[w], t) ==> w in s.workers && s'.workers[w] == s.workers[w]
    requires w in s'.workers ==> InsertOk(s', t, s'.workers[w])
    requires LiveMessages(s', t) == LiveMessages(s, t)
    requires t in s'.tasks <==> t in s.tasks
    requires t in s.tasks ==> s'.tasks[t] == s.tasks[t]
    requires s'.history.calls[t] == s.history.calls[t] && AttemptsOf(s'.history, t) == AttemptsOf(s.history, t)
    requires t in s'.history.published <==> t in s.history.published
    ensures TokenOk(s', t)
  {
  }

  /** The acting worker holds the token of `t` before the step, and it or the retry queue holds it after. */
  lemma TokenMoves(s: State, s': State, w: nat, t: nat)
    requires TokenOk(s, t) && w in s.workers && Active(s.workers[w], t)
    requires w in s'.workers && s'.workers == s.workers[w := s'.workers[w]]
    requires Active(s'.workers[w], t) ==> !Queued(s', t) && HolderOk(s', t, s'.workers[w].stage)
    requires InsertOk(s', t, s'.workers[w])
    requires LiveMessages(s', t) <= 1 && (Queued(s', t) ==> QueuedOk(s', t)) && PastOk(s', t)
    ensures TokenOk(s', t)
  {
    forall v | v in s'.workers && Active(s'.workers[v], t) ensures v == w {
      assert Active(s.workers[w], t);
    }
    forall v | v in s'.workers && v != w ensures InsertOk(s', t, s'.workers[v]) {
      assert s'.workers[v] == s.workers[v];
      assert t in s.tasks && s.tasks[t].status == TaskPending;
      assert InsertOk(s, t, s.workers[v]);
    }
  }

  lemma HolderSteps(cfg: Config, s: State, w: nat, built: bool, outcome: Outcome)
    requires WorkEnabled(s, w) && SnapshotOk(cfg, s, s.workers[w].task, s.workers[w].stage)
    requires Active(s.workers[w], s.workers[w].task)
    requires HolderOk(s, s.workers[w].task, s.workers[w].stage)
    requires LiveMessages(s, s.workers[w].task) == 0
    ensures var s', t := WorkNext(cfg, s, w, built, outcome), s.workers[w].task;
            && (Active(s'.workers[w], t) ==> !Queued(s', t) && HolderOk(s', t, s'.workers[w].stage))
            && InsertOk(s', t, s'.workers[w])
  {
  }

  lemma HolderLeaves(cfg: Config, s: State, w: nat, built: bool, outcome: Outcome)
    requires WorkEnabled(s, w)
    requires s.workers[w].task in s.history.published && Active(s.workers[w], s.workers[w].task)
    requires HolderOk(s, s.workers[w].task, s.workers[w].stage)
    requires LiveMessages(s, s.workers[w].task) == 0 && PastOk(s, s.workers[w].task)
    ensures var s', t := WorkNext(cfg, s, w, built, outcome), s.workers[w].task;
            LiveMessages(s', t) <= 1 && (Queued(s', t) ==> QueuedOk(s', t)) && PastOk(s', t)
  {
    hide WorkerAfter;
  }

  lemma BystanderSteps(cfg: Config, s: State, w: nat, built: bool, outcome: Outcome, t: nat)
    requires WorkEnabled(s, w)
    requires t != s.workers[w].task || !Active(s.workers[w], t)
    ensures var s' := WorkNext(cfg, s, w, built, outcome);
            !Active(s'.workers[w], t) && InsertOk(s', t, s'.workers[w])
  {
    hide CountVerdict, AfterPayload, AfterResponse;
  }

  lemma BystanderRows(cfg: Config, s: State, w: nat, built: bool, outcome: Outcome, t: nat)
    requires WorkEnabled(s, w)
    requires t != s.workers[w].task || !Active(s.workers[w], t)
    requires InsertOk(s, t, s.workers[w])
    ensures var s' := WorkNext(cfg, s, w, built, outcome);
            && LiveMessages(s', t) == LiveMessages(s, t)
            && (t in s'.tasks <==> t in s.tasks) && (t in s.tasks ==> s'.tasks[t] == s.tasks[t])
            && s'.history.calls[t] == s.history.calls[t] && AttemptsOf(s'.history, t) == AttemptsOf(s.history, t)
  {
    hide WorkerAfter;
  }

  lemma WorkKeepsToken(cfg: Config, s: State, w: nat, built: bool, outcome: Outcome, t: nat)
    requires WorkEnabled(s, w) && SnapshotOk(cfg, s, s.workers[w].task, s.workers[w].stage)
    requires s.workers[w].task in s.history.published
    requires TokenOk(s, t)
    ensures TokenOk(WorkNext(cfg, s, w, built, outcome), t)
  {
    var s' := WorkNext(cfg, s, w, built, outcome);
    assert s'.workers == s.workers[w := s'.workers[w]] && s'.history.published == s.history.published;
    hide WorkNext, HolderOk, QueuedOk, PastOk, SnapshotOk, AttemptsOf;
    if Active(s.workers[w], t) {
      HolderSteps(cfg, s, w, built, outcome);
      HolderLeaves(cfg, s, w, built, outcome);
      hide LiveMessages, InsertOk;
      TokenMoves(s, s', w, t);
    } else {
      assert InsertOk(s, t, s.workers[w]);
      hide TokenOk;
      BystanderSteps(cfg, s, w, built, outcome, t);
      BystanderRows(cfg, s, w, built, outcome, t);
      hide LiveMessages, InsertOk, Active;
      TokenFrame(s, s', w, t);
    }
  }

  lemma FaultKeepsToken(cfg: Config, s: State, w: nat, t: nat)
    requires WorkEnabled(s, w) && TokenOk(s, t)
    ensures TokenOk(WorkFault(s, w), t)
  {
  }

  /** A crash redelivers only the message in the worker's hands. */
  lemma CrashKeepsToken(s: State, w: nat, t: nat)
    requires WorkEnabled(s, w) && s.workers[w].task != t && TokenOk(s, t)
    ensures TokenOk(CrashNext(s, w), t)
  {
  }

  lemma TakeKeepsToken(s: State, w: nat, u: nat, t: nat)
    requires w in s.workers && s.workers[w].Idle? && u in s.deliveryQueue && TokenOk(s, t)
    ensures TokenOk(TakeNext(s, w, u), t)
  {
  }

  lemma ExpireKeepsToken(s: State, u: nat, t: nat)
    requires RetryMessage(u, true) in s.retryQueue && TokenOk(s, t)
    ensures TokenOk(ExpireNext(s, u), t)
  {
  }

  /** A task about to be published has no token and no past. */
  lemma PublishGivesToken(s: State, s': State, t: nat)
    requires TokenOk(s, t) && t in s.tasks && s.tasks[t].status == TaskPending && t !in s.history.published
    requires LiveMessages(s, t) == 0 && (forall w :: w in s.workers && s.workers[w].Busy? ==> s.workers[w].task != t)
    requires s'.workers == s.workers && s'.tasks == s.tasks && s'.retryQueue == s.retryQueue
    requires s'.deliveryQueue == s.deliveryQueue + multiset{t}
    requires s'.history.calls == s.history.calls && s'.history.attempts == s.history.attempts
    requires s'.history.published == s.history.published + {t}
    ensures TokenOk(s', t)
  {
  }

  lemma DispatchKeepsToken(cfg: Config, s: State, d: nat, newTask: nat, t: nat)
    requires DispatchEnabled(cfg, s, d, newTask) && DispatcherOk(cfg, s, s.dispatchers[d])
    requires PublishedOk(s) && WorkersOk(cfg, s) && TokenOk(s, t)
    ensures TokenOk(DispatchNext(cfg, s, d, newTask), t)
  {
    var s' := DispatchNext(cfg, s, d, newTask);
    var stage := s.dispatchers[d].stage;
    hide DispatcherAfter, InsertSucceeds;
    if stage.PublishTasks? && t == stage.remaining[0] {
      assert Fresh(s, s.dispatchers[d].notification, t);
      PublishGivesToken(s, s', t);
    } else if stage.InsertTask? && t == newTask {
      assert t !in s.history.published && !Queued(s, t);
      NewTaskHasNoToken(s, s', t);
    } else {
      hide TokenOk;
      DispatchSame(cfg, s, d, newTask, t);
    }
  }

  lemma NewTaskHasNoToken(s: State, s': State, t: nat)
    requires TokenOk(s, t) && t !in s.tasks && !Queued(s, t) && t !in s.history.published
    requires forall w :: w in s.workers && s.workers[w].Busy? ==> s.workers[w].task != t
    requires s'.workers == s.workers && s'.retryQueue == s.retryQueue && s'.deliveryQueue == s.deliveryQueue
    requires s'.history == s.history
    requires t in s'.tasks ==> s'.tasks[t].retryCount == 0
    ensures TokenOk(s', t)
  {
  }

  lemma DispatchSame(cfg: Config, s: State, d: nat, newTask: nat, t: nat)
    requires DispatchEnabled(cfg, s, d, newTask) && TokenOk(s, t)
    requires s.dispatchers[d].stage.PublishTasks? ==> t != s.dispatchers[d].stage.remaining[0]
    requires s.dispatchers[d].stage.InsertTask? ==> t != newTask
    ensures TokenOk(DispatchNext(cfg, s, d, newTask), t)
  {
    hide DispatcherAfter, InsertSucceeds;
  }
}
