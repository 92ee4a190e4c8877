/** Every task's journey ends: a measure that each step of its token lowers. */
module ProtocolTermination {
  import opened Protocol
  import opened ProtocolInvariants
  import opened ProtocolTokens
  import opened ProtocolVerdict
  import opened ProtocolStranding
  import opened ProtocolLife
  import opened ProtocolTheorems

  /** How far the holder of a token is from giving it up or finishing the task. */
  function StagePosition(stage: WorkerStage): nat {
    match stage
    case PublishDelayed(_) => 15
    case GetTask => 12
    case GetPayload(_) => 11
    case CallVendor(_, _) => 10
    case UpdateRetry(_) => 9
    case MarkSucceeded(_) => 1
    case MarkDeadLetter(_) => 1
    case _ => 0
  }

  ghost predicate Held(s: State, t: nat) {
    exists w :: w in s.workers && Active(s.workers[w], t)
  }

  ghost function Holder(s: State, t: nat): (w: nat)
    requires Held(s, t)
    ensures w in s.workers && Active(s.workers[w], t)
  {
    var w :| w in s.workers && Active(s.workers[w], t); w
  }

  /** Where the token of a task is; 0 once there is none. */
  ghost function Position(s: State, t: nat): nat {
    if t !in s.history.published then 16
    else if t in s.deliveryQueue then 13
    else if RetryMessage(t, true) in s.retryQueue then 14
    else if Held(s, t) then StagePosition(s.workers[Holder(s, t)].stage)
    else 0
  }

  function Remaining(cfg: Config, row: Task): nat {
    if RetryLimit(cfg, row) >= row.retryCount then RetryLimit(cfg, row) - row.retryCount else 0
  }

  /** Lexicographic: the attempts left, then the position of the token. */
  ghost function Rank(cfg: Config, s: State, t: nat): nat
    requires t in s.tasks
  {
    if Position(s, t) == 0 then 0 else 20 * Remaining(cfg, s.tasks[t]) + Position(s, t)
  }

  /** The step moves the token of `t`. */
  predicate Moves(s: State, a: Action, t: nat) {
    match a
    case Dispatch(d, ok, _) =>
      ok && d in s.dispatchers && s.dispatchers[d].Dispatching? && s.dispatchers[d].stage.PublishTasks?
      && s.dispatchers[d].stage.remaining != [] && s.dispatchers[d].stage.remaining[0] == t
    case Take(_, u) => u == t
    case Expire(u) => u == t
    case Work(w, _, _, _) => w in s.workers && Active(s.workers[w], t)
    case _ => false
  }

  lemma HeldBy(s: State, w: nat, t: nat)
    requires TokenOk(s, t) && w in s.workers && Active(s.workers[w], t) && t in s.history.published
    ensures Position(s, t) == StagePosition(s.workers[w].stage)
  {
  }

  /** The holder's own step: down one position, or up a retry at the price of an attempt. */
  lemma HolderLowers(cfg: Config, s: State, w: nat, built: bool, outcome: Outcome)
    requires WorkEnabled(s, w) && SnapshotOk(cfg, s, s.workers[w].task, s.workers[w].stage)
    requires Active(s.workers[w], s.workers[w].task) && HolderOk(s, s.workers[w].task, s.workers[w].stage)
    requires LiveMessages(s, s.workers[w].task) == 0
    ensures var s', t := WorkNext(cfg, s, w, built, outcome), s.workers[w].task;
            && t in s'.tasks && t !in s'.deliveryQueue
            && (Active(s'.workers[w], t) ==>
                  20 * Remaining(cfg, s'.tasks[t]) + StagePosition(s'.workers[w].stage)
                    < 20 * Remaining(cfg, s.tasks[t]) + StagePosition(s.workers[w].stage))
            && (Queued(s', t) ==> s.workers[w].stage.PublishDelayed?)
            && (Queued(s', t) ==> Remaining(cfg, s'.tasks[t]) == Remaining(cfg, s.tasks[t]))
            && StagePosition(s.workers[w].stage) > 0
  {
    hide CountVerdict;
  }

  lemma WorkLowersRank(cfg: Config, s: State, w: nat, built: bool, outcome: Outcome, t: nat)
    requires WorkEnabled(s, w) && SnapshotOk(cfg, s, s.workers[w].task, s.workers[w].stage)
    requires Active(s.workers[w], t) && t in s.history.published
    requires TokenOk(s, t) && TokenOk(WorkNext(cfg, s, w, built, outcome), t)
    ensures var s' := WorkNext(cfg, s, w, built, outcome);
            t in s'.tasks && Rank(cfg, s', t) < Rank(cfg, s, t)
  {
    var s' := WorkNext(cfg, s, w, built, outcome);
    WorkTouches(cfg, s, w, built, outcome);
    HeldBy(s, w, t);
    HolderLowers(cfg, s, w, built, outcome);
    hide WorkNext, SnapshotOk, HolderOk, QueuedOk, PastOk, Remaining, StagePosition;
    if w in s'.workers && Active(s'.workers[w], t) {
      HeldBy(s', w, t);
    } else if !Queued(s', t) {
      NoHolder(s, s', w, t);
    }
  }

  lemma NoHolder(s: State, s': State, w: nat, t: nat)
    requires TokenOk(s, t) && w in s.workers && Active(s.workers[w], t)
    requires w in s'.workers && s'.workers == s.workers[w := s'.workers[w]] && !Active(s'.workers[w], t)
    ensures !Held(s', t)
  {
  }

  lemma FaultLowersRank(cfg: Config, s: State, w: nat, t: nat)
    requires WorkEnabled(s, w) && SnapshotOk(cfg, s, s.workers[w].task, s.workers[w].stage)
    requires Active(s.workers[w], t) && t in s.history.published && TokenOk(s, t)
    ensures Rank(cfg, WorkFault(s, w), t) < Rank(cfg, s, t)
  {
    HeldBy(s, w, t);
    NoHolder(s, WorkFault(s, w), w, t);
  }

  /** The rank depends only on the row, the messages and the holder of `t`. */
  lemma RankFrame(cfg: Config, s: State, s': State, t: nat)
    requires TokenOk(s, t) && TokenOk(s', t) && t in s.tasks && t in s'.tasks && s'.tasks[t] == s.tasks[t]
    requires t in s'.history.published <==> t in s.history.published
    requires t in s'.deliveryQueue <==> t in s.deliveryQueue
    requires RetryMessage(t, true) in s'.retryQueue <==> RetryMessage(t, true) in s.retryQueue
    requires forall w :: w in s.workers && Active(s.workers[w], t) ==> w in s'.workers && s'.workers[w] == s.workers[w]
    requires forall w :: w in s'.workers && Active(s'.workers[w], t) ==> w in s.workers && s'.workers[w] == s.workers[w]
    ensures Rank(cfg, s', t) == Rank(cfg, s, t)
  {
    hide HolderOk, QueuedOk, PastOk, Remaining;
    assert Held(s, t) <==> Held(s', t);
    if Held(s, t) {
      var w := Holder(s, t);
      assert w in s'.workers && Active(s'.workers[w], t);
      assert Holder(s', t) == w;
    }
  }

  lemma BystanderKeepsRank(cfg: Config, s: State, w: nat, built: bool, outcome: Outcome, t: nat)
    requires WorkEnabled(s, w) && !Active(s.workers[w], t) && t in s.tasks
    requires TokenOk(s, t) && TokenOk(WorkNext(cfg, s, w, built, outcome), t)
    ensures var s' := WorkNext(cfg, s, w, built, outcome);
            t in s'.tasks && Rank(cfg, s', t) == Rank(cfg, s, t)
  {
    var s' := WorkNext(cfg, s, w, built, outcome);
    WorkTouches(cfg, s, w, built, outcome);
    WorkSparesDeliveries(cfg, s, w, built, outcome);
    BystanderSteps(cfg, s, w, built, outcome, t);
    assert InsertOk(s, t, s.workers[w]);
    BystanderRows(cfg, s, w, built, outcome, t);
    hide WorkNext, TokenOk, Rank;
    RankFrame(cfg, s, s', t);
  }

  lemma WorkSparesDeliveries(cfg: Config, s: State, w: nat, built: bool, outcome: Outcome)
    requires WorkEnabled(s, w)
    ensures WorkNext(cfg, s, w, built, outcome).deliveryQueue == s.deliveryQueue
  {
    hide WorkerAfter;
  }

  lemma TakeLowersRank(cfg: Config, s: State, w: nat, u: nat, t: nat)
    requires w in s.workers && s.workers[w].Idle? && u in s.deliveryQueue && t in s.tasks
    requires TokenOk(s, t) && TokenOk(TakeNext(s, w, u), t) && (u == t ==> t in s.history.published)
    ensures Lowers(cfg, s, TakeNext(s, w, u), u == t, t)
  {
    var s' := TakeNext(s, w, u);
    if u == t {
      assert w in s'.workers && Active(s'.workers[w], t);
      HeldBy(s', w, t);
    } else {
      RankFrame(cfg, s, s', t);
    }
  }

  lemma ExpireLowersRank(cfg: Config, s: State, u: nat, t: nat)
    requires RetryMessage(u, true) in s.retryQueue && t in s.tasks
    requires TokenOk(s, t) && TokenOk(ExpireNext(s, u), t) && (u == t ==> t in s.history.published)
    ensures Lowers(cfg, s, ExpireNext(s, u), u == t, t)
  {
    if u != t { RankFrame(cfg, s, ExpireNext(s, u), t); }
  }

  lemma DispatchLowersRank(cfg: Config, s: State, d: nat, newTask: nat, t: nat)
    requires DispatchEnabled(cfg, s, d, newTask) && DispatcherOk(cfg, s, s.dispatchers[d]) && t in s.tasks
    requires TokenOk(s, t) && TokenOk(DispatchNext(cfg, s, d, newTask), t)
    ensures Lowers(cfg, s, DispatchNext(cfg, s, d, newTask), Moves(s, Dispatch(d, true, newTask), t), t)
  {
    var s' := DispatchNext(cfg, s, d, newTask);
    hide DispatcherAfter, InsertSucceeds;
    if Moves(s, Dispatch(d, true, newTask), t) {
      assert Fresh(s, s.dispatchers[d].notification, t);
    } else {
      hide DispatcherOk;
      RankFrame(cfg, s, s', t);
    }
  }

  /** A move of the token lowers the rank; anything else leaves it. */
  ghost predicate Lowers(cfg: Config, s: State, s': State, moves: bool, t: nat)
    requires t in s.tasks
  {
    t in s'.tasks && if moves then Rank(cfg, s', t) < Rank(cfg, s, t) else Rank(cfg, s', t) == Rank(cfg, s, t)
  }

  lemma WorkRank(cfg: Config, s: State, w: nat, built: bool, outcome: Outcome, t: nat)
    requires WorkEnabled(s, w) && t in s.tasks
    requires Structure(cfg, s) && TokenOk(s, t) && TokenOk(WorkNext(cfg, s, w, built, outcome), t)
    ensures Lowers(cfg, s, WorkNext(cfg, s, w, built, outcome), Active(s.workers[w], t), t)
  {
    hide RowsOk, FirstRowOk, UniqueTasks, PublishedOk, DispatchersOk, DispatchedOk, Rank, WorkNext;
    WorkerIsOk(cfg, s, w);
    hide TokenOk, SnapshotOk;
    if Active(s.workers[w], t) {
      WorkLowersRank(cfg, s, w, built, outcome, t);
    } else {
      BystanderKeepsRank(cfg, s, w, built, outcome, t);
    }
  }

  lemma FaultRank(cfg: Config, s: State, w: nat, t: nat)
    requires WorkEnabled(s, w) && t in s.tasks
    requires Structure(cfg, s) && TokenOk(s, t) && TokenOk(WorkFault(s, w), t)
    ensures Lowers(cfg, s, WorkFault(s, w), Active(s.workers[w], t), t)
  {
    hide RowsOk, FirstRowOk, UniqueTasks, PublishedOk, DispatchersOk, DispatchedOk, Rank, TokenOk;
    WorkerIsOk(cfg, s, w);
    if Active(s.workers[w], t) { FaultLowersRank(cfg, s, w, t); } else { RankFrame(cfg, s, WorkFault(s, w), t); }
  }

  lemma DispatchRank(cfg: Config, s: State, d: nat, newTask: nat, t: nat)
    requires DispatchEnabled(cfg, s, d, newTask) && Structure(cfg, s) && t in s.tasks
    requires TokenOk(s, t) && TokenOk(DispatchNext(cfg, s, d, newTask), t)
    ensures Lowers(cfg, s, DispatchNext(cfg, s, d, newTask), Moves(s, Dispatch(d, true, newTask), t), t)
  {
    DispatcherIsOk(cfg, s, d);
    hide Structure, TokenOk, DispatcherOk, DispatchedOk, Rank, DispatchNext;
    DispatchLowersRank(cfg, s, d, newTask, t);
  }

  lemma OtherRank(cfg: Config, s: State, a: Action, t: nat)
    requires Enabled(cfg, s, a) && t in s.tasks && TokenOk(s, t) && TokenOk(Next(cfg, s, a), t)
    requires Sidelong(a) && !a.Work? && !a.Take? && !a.Expire? && (a.WorkerCrash? ==> s.workers[a.worker].task != t)
    ensures Lowers(cfg, s, Next(cfg, s, a), false, t)
  {
    hide TokenOk, Rank, DispatchNext, WorkNext, WorkFault, TakeNext, ExpireNext;
    RankFrame(cfg, s, Next(cfg, s, a), t);
  }

  /**
    Every step that moves the token of a task lowers its rank, failing calls included, and no other
    step changes it, unless a worker crashes with the task itself.
   */
  lemma StepLowersRank(cfg: Config, s: State, a: Action, t: nat)
    requires Enabled(cfg, s, a) && t in s.tasks && (a.WorkerCrash? ==> s.workers[a.worker].task != t)
    requires Structure(cfg, s) && TokenOk(s, t) && TokenOk(Next(cfg, s, a), t)
    ensures Lowers(cfg, s, Next(cfg, s, a), Moves(s, a, t), t)
  {
    hide TokenOk, Rank, Lowers, DispatchNext, WorkNext, WorkFault, CrashNext, DispatchEnabled;
    hide RowsOk, FirstRowOk, UniqueTasks, WorkersOk, DispatchersOk, DispatchedOk;
    assert PublishedOk(s);
    if a.Work? && a.ok {
      WorkRank(cfg, s, a.worker, a.built, a.outcome, t);
    } else if a.Work? {
      FaultRank(cfg, s, a.worker, t);
    } else if a.Dispatch? && a.ok {
      hide PublishedOk;
      DispatchRank(cfg, s, a.dispatcher, a.newTask, t);
    } else if a.Take? {
      TakeLowersRank(cfg, s, a.worker, a.task, t);
    } else if a.Expire? {
      ExpireLowersRank(cfg, s, a.task, t);
    } else {
      OtherRank(cfg, s, a, t);
    }
  }

  /** How many of the first `i` steps of a run move the token of `t`. */
  function MoveCount(r: Run, t: nat, i: nat): nat
    requires i <= |r.actions| && i < |r.states|
  {
    if i == 0 then 0
    else MoveCount(r, t, i - 1) + if Moves(r.states[i - 1], r.actions[i - 1], t) then 1 else 0
  }

  /** Between two states of a run the token moves at most as often as the rank went down. */
  lemma {:induction false} MovesCostRank(cfg: Config, r: Run, i: nat, j: nat, t: nat)
    requires IsRun(cfg, r) && i <= j < |r.states| && t !in r.states[j].history.redelivered && t in r.states[i].tasks
    ensures t in r.states[j].tasks
    ensures MoveCount(r, t, j) - MoveCount(r, t, i) + Rank(cfg, r.states[j], t) <= Rank(cfg, r.states[i], t)
    decreases j
  {
    hide IsRun, Rank, Moves;
    RunLength(cfg, r);
    if i < j {
      RunGrows(cfg, r, j - 1, j);
      MovesCostRank(cfg, r, i, j - 1, t);
      RunStepLowersRank(cfg, r, j - 1, t);
    }
  }

  lemma RunStepLowersRank(cfg: Config, r: Run, i: nat, t: nat)
    requires IsRun(cfg, r) && i < |r.actions| && t !in r.states[i + 1].history.redelivered && t in r.states[i].tasks
    ensures Lowers(cfg, r.states[i], r.states[i + 1], Moves(r.states[i], r.actions[i], t), t)
  {
    InvInRuns(cfg, r, i);
    InvInRuns(cfg, r, i + 1);
    RunStep(cfg, r, i);
    hide IsRun, Next, Enabled, Structure, TokenOk, NotLost, Verdicts, Rank, Moves;
    StepRedelivers(cfg, r.states[i], r.actions[i]);
    StepLowersRank(cfg, r.states[i], r.actions[i], t);
  }

  /**
    So the journey of the token of a task that is not redelivered ends after at most 20 * max(1, MaxAttempts)
    moves.
   */
  lemma JourneyEnds(cfg: Config, r: Run, i: nat, j: nat, t: nat)
    requires IsRun(cfg, r) && i <= j < |r.states| && t !in r.states[j].history.redelivered && t in r.states[i].tasks
    ensures MoveCount(r, t, j) - MoveCount(r, t, i) <= 20 * (RetryLimit(cfg, r.states[i].tasks[t]) + 1)
  {
    MovesCostRank(cfg, r, i, j, t);
    hide IsRun, MoveCount;
    PositionBounded(r.states[i], t);
  }

  lemma PositionBounded(s: State, t: nat)
    ensures Position(s, t) <= 16
  {
  }

  /** What is left of a message's processing, in calls. */
  function StageRank(pc: Worker): nat {
    if pc.Idle? then 0
    else match pc.stage
      case GetTask => 12
      case GetPayload(_) => 11
      case CallVendor(_, _) => 10
      case UpdateRetry(_) => 9
      case PublishDelayed(_) => 8
      case MarkSucceeded(_) => 7
      case MarkDeadLetter(_) => 7
      case InsertDeadLetter(_) => 6
      case CountTasks(_) => 5
      case WriteStatus(_, _) => 4
      case Ack => 1
      case Nack => 1
  }

  /** Every call, failing or not, brings the worker nearer to acknowledging its message. */
  lemma ProcessingEnds(cfg: Config, s: State, w: nat, ok: bool, built: bool, outcome: Outcome)
    requires Enabled(cfg, s, Work(w, ok, built, outcome))
    ensures StageRank(Next(cfg, s, Work(w, ok, built, outcome)).workers[w]) < StageRank(s.workers[w])
  {
    if ok {
      hide CountVerdict;
      assert Next(cfg, s, Work(w, ok, built, outcome)).workers[w]
             == WorkerAfter(cfg, s, s.workers[w].task, s.workers[w].stage, built, outcome);
    }
  }
}
