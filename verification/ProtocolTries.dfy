/**
  How often a task is tried, and what for: the answers its requests got, told apart by their codes,
  decide between delivery, another try and giving up.
 */
module ProtocolTries {
  import opened Protocol
  import opened ProtocolInvariants
  import opened ProtocolTokens
  import opened ProtocolStranding
  import opened ProtocolTheorems

  /** A try either never became a request, or got an answer. */
  datatype Try = Unbuilt | Answered(outcome: Outcome)

  /** Worth another try: not built, not answered, turned away for now, or failed by the server. */
  predicate Again(x: Try) {
    x.Unbuilt? || x.outcome.NetworkError? || x.outcome.code == 429 || x.outcome.code >= 500
  }

  predicate Delivered(x: Try) {
    x.Answered? && x.outcome.Response? && 200 <= x.outcome.code <= 299
  }

  /** Any other code: redirections, and refusals that another try would not change. */
  predicate Refused(x: Try) {
    && x.Answered? && x.outcome.Response?
    && x.outcome.code < 500 && x.outcome.code != 429 && !(200 <= x.outcome.code <= 299)
  }

  predicate Configured(cfg: Config, row: Task) { (row.vendor, row.eventType) in cfg.maxAttempts }

  /** The number of tries a configured task is entitled to: one at least. */
  function Entitled(cfg: Config, row: Task): nat
    requires Configured(cfg, row)
  {
    var max := cfg.maxAttempts[(row.vendor, row.eventType)];
    if max > 1 then max else 1
  }

  /** What a worker's successful call adds to the tries of its task. */
  function Attempt(cfg: Config, s: State, stage: WorkerStage, built: bool, outcome: Outcome): (tries: seq<Try>)
    ensures |tries| <= 1
  {
    match stage
    case CallVendor(_, _) => [Answered(outcome)]
    case GetPayload(row) =>
      if row.notification in s.notifications && Configured(cfg, row) && !built then [Unbuilt] else []
    case _ => []
  }

  function TryOf(cfg: Config, s: State, a: Action, t: nat): (tries: seq<Try>)
    ensures |tries| <= 1
  {
    if a.Work? && a.ok && WorkEnabled(s, a.worker) && s.workers[a.worker].task == t
    then Attempt(cfg, s, s.workers[a.worker].stage, a.built, a.outcome)
    else []
  }

  /** The tries of a task in the first `i` steps of a run, in order. */
  function TriesOf(cfg: Config, r: Run, i: nat, t: nat): seq<Try>
    requires i <= |r.actions| && i <= |r.states|
  {
    if i == 0 then [] else TriesOf(cfg, r, i - 1, t) + TryOf(cfg, r.states[i - 1], r.actions[i - 1], t)
  }

  function AgainCount(tries: seq<Try>): nat {
    if tries == [] then 0
    else AgainCount(tries[..|tries| - 1]) + (if Again(tries[|tries| - 1]) then 1 else 0)
  }

  lemma NoMoreTries(tries: seq<Try>)
    ensures tries + [] == tries
  {
  }

  lemma OneMoreTry(tries: seq<Try>, x: Try)
    ensures AgainCount(tries + [x]) == AgainCount(tries) + (if Again(x) then 1 else 0)
  {
    assert (tries + [x])[..|tries|] == tries;
  }

  // ---------------------------------------------------------------- in every run, redelivered or not

  ghost predicate Earned(cfg: Config, row: Task, tries: seq<Try>) {
    || !Configured(cfg, row)
    || (exists k :: 0 <= k < |tries| && Refused(tries[k]))
    || AgainCount(tries) >= Entitled(cfg, row)
  }

  ghost predicate SomeDelivered(tries: seq<Try>) {
    exists k :: 0 <= k < |tries| && Delivered(tries[k])
  }

  ghost predicate JudgedOk(cfg: Config, stage: WorkerStage, tries: seq<Try>) {
    && (HasSnapshot(stage) ==> stage.row.retryCount <= AgainCount(tries))
    && (stage.UpdateRetry? ==> stage.row.retryCount + 1 <= AgainCount(tries))
    && (stage.MarkSucceeded? ==> SomeDelivered(tries))
    && (stage.MarkDeadLetter? || stage.InsertDeadLetter? ==> Earned(cfg, stage.row, tries))
  }

  ghost predicate RowOk(cfg: Config, s: State, t: nat, tries: seq<Try>) {
    t in s.tasks ==>
      && s.tasks[t].retryCount <= AgainCount(tries)
      && (s.tasks[t].status == TaskDeadLetter ==> Earned(cfg, s.tasks[t], tries))
      && (s.tasks[t].status == TaskSucceeded ==> SomeDelivered(tries))
  }

  ghost predicate DeservedOk(cfg: Config, s: State, t: nat, tries: seq<Try>) {
    && RowOk(cfg, s, t, tries)
    && forall w :: w in s.workers && s.workers[w].Busy? && s.workers[w].task == t ==>
         JudgedOk(cfg, s.workers[w].stage, tries)
  }

  lemma MoreTries(cfg: Config, row: Task, tries: seq<Try>, more: seq<Try>)
    requires |more| <= 1
    ensures AgainCount(tries) <= AgainCount(tries + more)
    ensures Earned(cfg, row, tries) ==> Earned(cfg, row, tries + more)
    ensures SomeDelivered(tries) ==> SomeDelivered(tries + more)
  {
    if more == [] {
      assert tries + more == tries;
    } else {
      OneMoreTry(tries, more[0]);
      assert more == [more[0]];
      hide AgainCount;
      assert forall k :: 0 <= k < |tries| ==> (tries + more)[k] == tries[k];
    }
  }

  /** The acting worker's next call is justified by the tries, the one it may just have made included. */
  lemma WorkJudges(cfg: Config, s: State, t: nat, stage: WorkerStage, built: bool, outcome: Outcome, tries: seq<Try>)
    requires SnapshotOk(cfg, s, t, stage) && JudgedOk(cfg, stage, tries) && RowOk(cfg, s, t, tries)
    ensures var pc := WorkerAfter(cfg, s, t, stage, built, outcome);
            pc.Busy? ==> JudgedOk(cfg, pc.stage, tries + Attempt(cfg, s, stage, built, outcome))
  {
    hide CountVerdict, AgainCount;
    NoMoreTries(tries);
    match stage
    case GetPayload(row) =>
      hide Earned, SomeDelivered;
      PayloadJudges(cfg, row, built, tries);
      hide AfterPayload;
    case CallVendor(row, max) =>
      hide Earned, SomeDelivered;
      ResponseJudges(cfg, row, outcome, tries);
      hide AfterResponse;
    case _ =>
  }

  lemma PayloadJudges(cfg: Config, row: Task, built: bool, tries: seq<Try>)
    requires row.retryCount <= AgainCount(tries)
    ensures JudgedOk(cfg, AfterPayload(cfg, row, built),
                     tries + (if Configured(cfg, row) && !built then [Unbuilt] else []))
    ensures tries + [] == tries
  {
    OneMoreTry(tries, Unbuilt);
    hide AgainCount;
    assert tries + [] == tries;
  }

  lemma ResponseJudges(cfg: Config, row: Task, outcome: Outcome, tries: seq<Try>)
    requires row.retryCount <= AgainCount(tries) && Configured(cfg, row)
    ensures JudgedOk(cfg, AfterResponse(row, cfg.maxAttempts[(row.vendor, row.eventType)], outcome),
                     tries + [Answered(outcome)])
  {
    OneMoreTry(tries, Answered(outcome));
    hide AgainCount;
    assert (tries + [Answered(outcome)])[|tries|] == Answered(outcome);
  }

  /** The row of the task, as the acting worker leaves it. */
  lemma WorkLeavesRow(cfg: Config, s: State, w: nat, built: bool, outcome: Outcome, tries: seq<Try>)
    requires WorkEnabled(s, w) && SnapshotOk(cfg, s, s.workers[w].task, s.workers[w].stage)
    requires JudgedOk(cfg, s.workers[w].stage, tries) && RowOk(cfg, s, s.workers[w].task, tries)
    ensures RowOk(cfg, WorkNext(cfg, s, w, built, outcome), s.workers[w].task, tries)
  {
    hide AgainCount, SomeDelivered, WorkerAfter;
  }

  /** A worker does not touch the rows of other tasks. */
  lemma WorkSparesRows(cfg: Config, s: State, w: nat, built: bool, outcome: Outcome, t: nat, tries: seq<Try>)
    requires WorkEnabled(s, w) && s.workers[w].task != t && RowOk(cfg, s, t, tries)
    ensures RowOk(cfg, WorkNext(cfg, s, w, built, outcome), t, tries)
  {
    hide AgainCount, SomeDelivered, Earned, WorkerAfter;
  }

  lemma MoreJudged(cfg: Config, s: State, t: nat, tries: seq<Try>, more: seq<Try>)
    requires |more| <= 1
    ensures RowOk(cfg, s, t, tries) ==> RowOk(cfg, s, t, tries + more)
    ensures forall stage :: JudgedOk(cfg, stage, tries) ==> JudgedOk(cfg, stage, tries + more)
  {
    if t in s.tasks { MoreTries(cfg, s.tasks[t], tries, more); }
    forall stage | JudgedOk(cfg, stage, tries) ensures JudgedOk(cfg, stage, tries + more) {
      MoreTries(cfg, if HasSnapshot(stage) then stage.row else Task(0, "", "", TaskPending, 0), tries, more);
      hide AgainCount, SomeDelivered, Earned;
    }
    hide AgainCount, SomeDelivered, Earned;
  }

  lemma WorkKeepsDeserved(cfg: Config, s: State, w: nat, built: bool, outcome: Outcome, t: nat, tries: seq<Try>)
    requires WorkEnabled(s, w) && SnapshotOk(cfg, s, s.workers[w].task, s.workers[w].stage)
    requires DeservedOk(cfg, s, t, tries)
    ensures DeservedOk(cfg, WorkNext(cfg, s, w, built, outcome), t,
                       tries + TryOf(cfg, s, Work(w, true, built, outcome), t))
  {
    var s', more := WorkNext(cfg, s, w, built, outcome), TryOf(cfg, s, Work(w, true, built, outcome), t);
    assert s'.workers == s.workers[w := WorkerAfter(cfg, s, s.workers[w].task, s.workers[w].stage, built, outcome)];
    MoreJudged(cfg, s', t, tries, more);
    if s.workers[w].task == t {
      WorkJudges(cfg, s, t, s.workers[w].stage, built, outcome, tries);
      WorkLeavesRow(cfg, s, w, built, outcome, tries);
    } else {
      WorkSparesRows(cfg, s, w, built, outcome, t, tries);
      StaysOn(cfg, s, s.workers[w].task, s.workers[w].stage, built, outcome);
    }
    hide WorkNext, WorkerAfter, RowOk, JudgedOk, Attempt, SnapshotOk;
  }

  lemma StaysOn(cfg: Config, s: State, t: nat, stage: WorkerStage, built: bool, outcome: Outcome)
    ensures var pc := WorkerAfter(cfg, s, t, stage, built, outcome); pc.Busy? ==> pc.task == t
  {
    hide CountVerdict, AfterPayload, AfterResponse;
  }

  /** Steps that are no successful call of a worker add no try, and touch rows only to create them. */
  lemma OthersKeepDeserved(cfg: Config, s: State, a: Action, t: nat, tries: seq<Try>)
    requires Enabled(cfg, s, a) && !(a.Work? && a.ok) && DeservedOk(cfg, s, t, tries)
    ensures DeservedOk(cfg, Next(cfg, s, a), t, tries)
  {
    OthersLeaveRows(cfg, s, a, t);
    OthersMoveWorkers(cfg, s, a, tries);
    hide Next, Enabled, DeservedOk, JudgedOk;
    DeservedFrame(cfg, s, Next(cfg, s, a), t, tries);
  }

  lemma DeservedFrame(cfg: Config, s: State, s': State, t: nat, tries: seq<Try>)
    requires DeservedOk(cfg, s, t, tries)
    requires t in s'.tasks ==>
      if t in s.tasks then s'.tasks[t] == s.tasks[t]
      else s'.tasks[t].retryCount == 0 && s'.tasks[t].status == TaskPending
    requires forall w :: w in s'.workers && s'.workers[w].Busy? ==>
      || JudgedOk(cfg, s'.workers[w].stage, tries)
      || (w in s.workers && s.workers[w].Busy? && s'.workers[w].task == s.workers[w].task
          && (JudgedOk(cfg, s.workers[w].stage, tries) ==> JudgedOk(cfg, s'.workers[w].stage, tries)))
    ensures DeservedOk(cfg, s', t, tries)
  {
    hide AgainCount, Earned, SomeDelivered, JudgedOk;
  }

  lemma OthersLeaveRows(cfg: Config, s: State, a: Action, t: nat)
    requires Enabled(cfg, s, a) && !(a.Work? && a.ok)
    ensures var ts := Next(cfg, s, a).tasks;
            t in ts ==>
              if t in s.tasks then ts[t] == s.tasks[t] else ts[t].retryCount == 0 && ts[t].status == TaskPending
  {
    hide DispatcherAfter, InsertSucceeds;
  }

  lemma OthersMoveWorkers(cfg: Config, s: State, a: Action, tries: seq<Try>)
    requires Enabled(cfg, s, a) && !(a.Work? && a.ok)
    ensures var ws := Next(cfg, s, a).workers;
            forall w :: w in ws && ws[w].Busy? ==>
              || JudgedOk(cfg, ws[w].stage, tries)
              || (w in s.workers && s.workers[w].Busy? && ws[w].task == s.workers[w].task
                  && (JudgedOk(cfg, s.workers[w].stage, tries) ==> JudgedOk(cfg, ws[w].stage, tries)))
  {
    hide DispatcherAfter, InsertSucceeds, TasksAfterDispatch, AgainCount, Earned, SomeDelivered;
  }

  lemma StepKeepsDeserved(cfg: Config, s: State, a: Action, t: nat, tries: seq<Try>)
    requires Structure(cfg, s) && Enabled(cfg, s, a) && DeservedOk(cfg, s, t, tries)
    ensures DeservedOk(cfg, Next(cfg, s, a), t, tries + TryOf(cfg, s, a, t))
  {
    if a.Work? && a.ok {
      WorkerIsOk(cfg, s, a.worker);
      hide DeservedOk, Structure, SnapshotOk, WorkNext;
      WorkKeepsDeserved(cfg, s, a.worker, a.built, a.outcome, t, tries);
    } else {
      hide DeservedOk, Structure, Next;
      assert tries + [] == tries;
      OthersKeepDeserved(cfg, s, a, t, tries);
    }
  }

  lemma {:induction false} DeservedInRuns(cfg: Config, r: Run, i: nat, t: nat)
    requires IsRun(cfg, r) && i < |r.states|
    ensures |r.states| == |r.actions| + 1 && DeservedOk(cfg, r.states[i], t, TriesOf(cfg, r, i, t))
  {
    RunLength(cfg, r);
    if i > 0 {
      RunStep(cfg, r, i - 1);
      InvInRuns(cfg, r, i - 1);
      DeservedInRuns(cfg, r, i - 1, t);
      hide IsRun, Structure, NotLost, Tokens, Next, Enabled, DeservedOk;
      StepKeepsDeserved(cfg, r.states[i - 1], r.actions[i - 1], t, TriesOf(cfg, r, i - 1, t));
    }
  }

  /**
    In every run, whatever fails, crashes or is redelivered: a task is dead-lettered only if it has no
    configuration, some answer refused it, or at least max(1, MaxAttempts) tries came to nothing. It
    succeeds only after an answer from 200 to 299.
   */
  lemma OutcomesAreDeserved(cfg: Config, r: Run, i: nat, t: nat)
    requires IsRun(cfg, r) && i < |r.states| && t in r.states[i].tasks
    ensures |r.states| == |r.actions| + 1
    ensures var row, tries := r.states[i].tasks[t], TriesOf(cfg, r, i, t);
            && (row.status == TaskDeadLetter ==>
                  || !Configured(cfg, row)
                  || (exists k :: 0 <= k < |tries| && Refused(tries[k]))
                  || AgainCount(tries) >= Entitled(cfg, row))
            && (row.status == TaskSucceeded ==> exists k :: 0 <= k < |tries| && Delivered(tries[k]))
  {
    DeservedInRuns(cfg, r, i, t);
    hide IsRun, AgainCount;
  }

  // ---------------------------------------------------------------- without redelivery: in order, and exactly

  /** So many tries, and each of them came to nothing. */
  ghost predicate Underway(tries: seq<Try>, n: int) {
    |tries| == n && forall k :: 0 <= k < |tries| ==> Again(tries[k])
  }

  ghost predicate EndsDelivered(tries: seq<Try>) { tries != [] && Delivered(tries[|tries| - 1]) }

  ghost predicate GivenUp(cfg: Config, row: Task, tries: seq<Try>) {
    || (!Configured(cfg, row) && tries == [])
    || (tries != [] && Refused(tries[|tries| - 1]))
    || (Configured(cfg, row) && |tries| >= Entitled(cfg, row) && Underway(tries, |tries|))
  }

  /** Only the last try can have come to something. */
  ghost predicate Persistent(tries: seq<Try>) {
    forall k :: 0 <= k < |tries| - 1 ==> Again(tries[k])
  }

  ghost predicate HeldOk(cfg: Config, s: State, t: nat, stage: WorkerStage, tries: seq<Try>)
    requires t in s.tasks
  {
    match stage
    case GetTask => Underway(tries, s.tasks[t].retryCount)
    case GetPayload(row) => Underway(tries, row.retryCount)
    case CallVendor(row, _) => Underway(tries, row.retryCount)
    case UpdateRetry(row) => Underway(tries, row.retryCount + 1)
    case PublishDelayed(row) => Underway(tries, row.retryCount + 1)
    case MarkSucceeded(_) => EndsDelivered(tries)
    case MarkDeadLetter(row) => GivenUp(cfg, row, tries)
    case _ => true
  }

  ghost predicate KnownOk(cfg: Config, s: State, t: nat, tries: seq<Try>)
    requires t in s.tasks
  {
    && |tries| <= s.tasks[t].retryCount + 1
    && (!Configured(cfg, s.tasks[t]) ==> tries == [])
    && (s.tasks[t].status == TaskDeadLetter ==> GivenUp(cfg, s.tasks[t], tries))
    && (s.tasks[t].status == TaskSucceeded ==> EndsDelivered(tries))
    && (Queued(s, t) ==> Underway(tries, s.tasks[t].retryCount))
  }

  ghost predicate OnceOk(cfg: Config, s: State, t: nat, tries: seq<Try>) {
    && Persistent(tries)
    && (t !in s.tasks || t !in s.history.published ==> tries == [])
    && (t in s.tasks ==> KnownOk(cfg, s, t, tries))
    && (forall w :: w in s.workers && Active(s.workers[w], t) && t in s.tasks ==>
          HeldOk(cfg, s, t, s.workers[w].stage, tries))
  }

  lemma PayloadContinues(cfg: Config, s: State, t: nat, row: Task, built: bool, tries: seq<Try>)
    requires t in s.tasks && Underway(tries, row.retryCount) && (!Configured(cfg, row) ==> tries == [])
    ensures HeldOk(cfg, s, t, AfterPayload(cfg, row, built),
                   tries + (if Configured(cfg, row) && !built then [Unbuilt] else []))
  {
    assert tries + [] == tries;
  }

  lemma ResponseContinues(cfg: Config, s: State, t: nat, row: Task, outcome: Outcome, tries: seq<Try>)
    requires t in s.tasks && Underway(tries, row.retryCount) && Configured(cfg, row)
    ensures HeldOk(cfg, s, t, AfterResponse(row, cfg.maxAttempts[(row.vendor, row.eventType)], outcome),
                   tries + [Answered(outcome)])
  {
  }

  /** The holder of the token goes on as its tries demand. */
  lemma HolderContinues(cfg: Config, s: State, w: nat, built: bool, outcome: Outcome, tries: seq<Try>)
    requires WorkEnabled(s, w) && SnapshotOk(cfg, s, s.workers[w].task, s.workers[w].stage)
    requires s.tasks[s.workers[w].task].notification in s.notifications
    requires HolderOk(s, s.workers[w].task, s.workers[w].stage)
    requires KnownOk(cfg, s, s.workers[w].task, tries)
    requires Active(s.workers[w], s.workers[w].task)
    requires HeldOk(cfg, s, s.workers[w].task, s.workers[w].stage, tries)
    ensures var t, s' := s.workers[w].task, WorkNext(cfg, s, w, built, outcome);
            && t in s'.tasks
            && (Active(s'.workers[w], t) ==>
                  HeldOk(cfg, s', t, s'.workers[w].stage, tries + Attempt(cfg, s, s.workers[w].stage, built, outcome)))
  {
    var t, stage := s.workers[w].task, s.workers[w].stage;
    NoMoreTries(tries);
    match stage
    case GetPayload(row) =>
      PayloadContinues(cfg, s, t, row, built, tries);
      hide AfterPayload, GivenUp, Underway, EndsDelivered, Again;
    case CallVendor(row, max) =>
      ResponseContinues(cfg, s, t, row, outcome, tries);
      hide AfterResponse, GivenUp, Underway, EndsDelivered, Again;
    case _ =>
      hide GivenUp, Underway, EndsDelivered, Again, CountVerdict, AfterPayload, AfterResponse;
  }

  /** What the holder's step leaves of the row and the queues agrees with the tries. */
  lemma HolderLeavesKnown(cfg: Config, s: State, w: nat, built: bool, outcome: Outcome, tries: seq<Try>)
    requires WorkEnabled(s, w) && SnapshotOk(cfg, s, s.workers[w].task, s.workers[w].stage)
    requires HolderOk(s, s.workers[w].task, s.workers[w].stage)
    requires KnownOk(cfg, s, s.workers[w].task, tries) && Persistent(tries)
    requires Active(s.workers[w], s.workers[w].task) && !Queued(s, s.workers[w].task)
    requires HeldOk(cfg, s, s.workers[w].task, s.workers[w].stage, tries)
    ensures var t, s' := s.workers[w].task, WorkNext(cfg, s, w, built, outcome);
            var tries' := tries + Attempt(cfg, s, s.workers[w].stage, built, outcome);
            t in s'.tasks && KnownOk(cfg, s', t, tries') && Persistent(tries')
  {
    var stage := s.workers[w].stage;
    hide WorkerAfter, AttemptsOf;
    if stage.GetPayload? || stage.CallVendor? {
      OneTryMore(tries, stage.row.retryCount, Attempt(cfg, s, stage, built, outcome));
      hide GivenUp, Underway, EndsDelivered, Persistent;
    } else {
      NoMoreTries(tries);
      hide Underway, EndsDelivered, Persistent;
    }
  }

  lemma OneTryMore(tries: seq<Try>, n: nat, more: seq<Try>)
    requires Underway(tries, n) && |more| <= 1
    ensures Persistent(tries + more) && |tries + more| <= n + 1
  {
  }

  lemma WorkKeepsOnce(cfg: Config, s: State, w: nat, built: bool, outcome: Outcome, t: nat, tries: seq<Try>)
    requires WorkEnabled(s, w) && SnapshotOk(cfg, s, s.workers[w].task, s.workers[w].stage)
    requires s.tasks[s.workers[w].task].notification in s.notifications && s.workers[w].task in s.history.published
    requires TokenOk(s, t) && OnceOk(cfg, s, t, tries)
    ensures OnceOk(cfg, WorkNext(cfg, s, w, built, outcome), t,
                   tries + TryOf(cfg, s, Work(w, true, built, outcome), t))
  {
    var s', more := WorkNext(cfg, s, w, built, outcome), TryOf(cfg, s, Work(w, true, built, outcome), t);
    assert s'.workers == s.workers[w := s'.workers[w]] && s'.history.published == s.history.published;
    if Active(s.workers[w], t) {
      assert HolderOk(s, t, s.workers[w].stage) && !Queued(s, t);
      assert forall v :: v in s.workers && Active(s.workers[v], t) ==> v == w;
      hide TokenOk, HolderOk, KnownOk, HeldOk, Persistent, SnapshotOk, WorkNext, Attempt;
      HolderContinues(cfg, s, w, built, outcome, tries);
      HolderLeavesKnown(cfg, s, w, built, outcome, tries);
    } else {
      assert InsertOk(s, t, s.workers[w]);
      assert more == [];
      NoMoreTries(tries);
      hide TokenOk, WorkNext, SnapshotOk;
      BystanderSteps(cfg, s, w, built, outcome, t);
      BystanderRows(cfg, s, w, built, outcome, t);
      SameQueues(s, s', t);
      hide LiveMessages, InsertOk, Active;
      OnceFrame(cfg, s, s', w, t, tries);
    }
  }

  lemma SameQueues(s: State, s': State, t: nat)
    requires LiveMessages(s', t) == LiveMessages(s, t)
    ensures Queued(s', t) <==> Queued(s, t)
  {
  }

  /** A step that leaves the task alone, and at most takes the acting worker's hold on it away. */
  lemma OnceFrame(cfg: Config, s: State, s': State, w: nat, t: nat, tries: seq<Try>)
    requires OnceOk(cfg, s, t, tries)
    requires forall v :: v in s'.workers && v != w ==> v in s.workers && s'.workers[v] == s.workers[v]
    requires w in s'.workers && Active(s'.workers[w], t) ==>
      || (w in s.workers && s'.workers[w] == s.workers[w])
      || (Queued(s, t) && s'.workers[w].stage.GetTask?)
    requires Queued(s', t) ==> Queued(s, t)
    requires t in s'.tasks <==> t in s.tasks
    requires t in s.tasks ==> s'.tasks[t] == s.tasks[t]
    requires t in s'.history.published <==> t in s.history.published
    ensures OnceOk(cfg, s', t, tries)
  {
    hide Persistent, GivenUp, Underway, EndsDelivered;
  }

  lemma MessagesKeepOnce(cfg: Config, s: State, a: Action, t: nat, tries: seq<Try>)
    requires Enabled(cfg, s, a) && OnceOk(cfg, s, t, tries) && TokenOk(s, t)
    requires a.Take? || a.Expire? || (a.Work? && !a.ok) || (a.WorkerCrash? && s.workers[a.worker].task != t)
    ensures OnceOk(cfg, Next(cfg, s, a), t, tries)
  {
    var s' := Next(cfg, s, a);
    hide OnceOk, TokenOk;
    OnceFrame(cfg, s, s', if a.Expire? then 0 else a.worker, t, tries);
  }

  lemma IdlesKeepOnce(cfg: Config, s: State, a: Action, t: nat, tries: seq<Try>)
    requires Enabled(cfg, s, a) && OnceOk(cfg, s, t, tries) && Tokenless(a)
    ensures OnceOk(cfg, Next(cfg, s, a), t, tries)
  {
    TokenlessMoves(cfg, s, a);
    hide OnceOk, Next, Enabled;
    OnceFrame(cfg, s, Next(cfg, s, a), 0, t, tries);
  }

  lemma DispatchKeepsOnce(cfg: Config, s: State, d: nat, newTask: nat, t: nat, tries: seq<Try>)
    requires DispatchEnabled(cfg, s, d, newTask) && DispatcherOk(cfg, s, s.dispatchers[d])
    requires WorkersOk(cfg, s) && TokenOk(s, t) && OnceOk(cfg, s, t, tries)
    ensures OnceOk(cfg, DispatchNext(cfg, s, d, newTask), t, tries)
  {
    var s', stage := DispatchNext(cfg, s, d, newTask), s.dispatchers[d].stage;
    hide DispatcherAfter, InsertSucceeds;
    if stage.PublishTasks? && t == stage.remaining[0] {
      assert Fresh(s, s.dispatchers[d].notification, t);
      assert tries == [];
      hide TokenOk, DispatchNext, DispatcherOk, Persistent;
      assert PastOk(s, t) by { TokenMeansPast(s, t); }
      StartsOnce(cfg, s, s', t);
    } else if stage.InsertTask? && t == newTask {
      assert tries == [];
      NewStartsOnce(cfg, s, s', t);
    } else {
      hide TokenOk, OnceOk, DispatcherOk, WorkersOk;
      OnceFrame(cfg, s, s', 0, t, tries);
    }
  }

  lemma TokenMeansPast(s: State, t: nat)
    requires TokenOk(s, t)
    ensures PastOk(s, t) && (Queued(s, t) ==> t in s.tasks)
  {
  }

  lemma StartsOnce(cfg: Config, s: State, s': State, t: nat)
    requires t in s.tasks && s.tasks[t].status == TaskPending && s.tasks[t].retryCount == 0
    requires s'.workers == s.workers && s'.tasks == s.tasks && OnceOk(cfg, s, t, [])
    requires forall w :: w in s.workers && s.workers[w].Busy? ==> s.workers[w].task != t
    ensures OnceOk(cfg, s', t, [])
  {
  }

  lemma NewStartsOnce(cfg: Config, s: State, s': State, t: nat)
    requires t in s'.tasks ==> s'.tasks[t].status == TaskPending && s'.tasks[t].retryCount == 0
    requires s'.workers == s.workers
    requires forall w :: w in s.workers && s.workers[w].Busy? ==> s.workers[w].task != t
    ensures OnceOk(cfg, s', t, [])
  {
  }

  lemma StepKeepsOnce(cfg: Config, s: State, a: Action, t: nat, tries: seq<Try>)
    requires Structure(cfg, s) && TokenOk(s, t) && Enabled(cfg, s, a) && OnceOk(cfg, s, t, tries)
    requires a.WorkerCrash? ==> s.workers[a.worker].task != t
    ensures OnceOk(cfg, Next(cfg, s, a), t, tries + TryOf(cfg, s, a, t))
  {
    hide Structure, TokenOk, OnceOk, DispatchNext, WorkNext, WorkFault, TakeNext, ExpireNext, CrashNext, Attempt;
    if a.Work? && a.ok {
      WorkerIsOk(cfg, s, a.worker);
      WorkedIsPublished(cfg, s, a.worker);
      WorkedIsNotified(cfg, s, a.worker);
      WorkKeepsOnce(cfg, s, a.worker, a.built, a.outcome, t, tries);
    } else {
      NoMoreTries(tries);
      if Tokenless(a) {
        IdlesKeepOnce(cfg, s, a, t, tries);
      } else if a.Dispatch? {
        DispatcherIsOk(cfg, s, a.dispatcher);
        StructureParts(cfg, s);
        DispatchKeepsOnce(cfg, s, a.dispatcher, a.newTask, t, tries);
      } else {
        MessagesKeepOnce(cfg, s, a, t, tries);
      }
    }
  }

  lemma WorkedIsNotified(cfg: Config, s: State, w: nat)
    requires Structure(cfg, s) && WorkEnabled(s, w)
    ensures s.workers[w].task in s.tasks && s.tasks[s.workers[w].task].notification in s.notifications
  {
  }

  lemma {:induction false} OnceInRuns(cfg: Config, r: Run, i: nat, t: nat)
    requires IsRun(cfg, r) && i < |r.states| && t !in r.states[i].history.redelivered
    ensures |r.states| == |r.actions| + 1 && OnceOk(cfg, r.states[i], t, TriesOf(cfg, r, i, t))
  {
    RunLength(cfg, r);
    if i > 0 {
      RunStep(cfg, r, i - 1);
      RunStepGrows(cfg, r, i - 1);
      InvInRuns(cfg, r, i - 1);
      assert TokenOk(r.states[i - 1], t);
      StepRedelivers(cfg, r.states[i - 1], r.actions[i - 1]);
      OnceInRuns(cfg, r, i - 1, t);
      hide IsRun, Structure, NotLost, Tokens, Next, OnceOk, TokenOk;
      StepKeepsOnce(cfg, r.states[i - 1], r.actions[i - 1], t, TriesOf(cfg, r, i - 1, t));
    }
  }

  /**
    A task that was not redelivered is tried as long as its tries come to nothing, and no longer: it
    succeeds after an answer from 200 to 299 to the last try, and is dead-lettered without a try if it
    has no configuration, after a refusal of the last try, or after exactly max(1, MaxAttempts) tries.
   */
  lemma TriesAreExact(cfg: Config, r: Run, i: nat, t: nat)
    requires IsRun(cfg, r) && i < |r.states| && t in r.states[i].tasks && t !in r.states[i].history.redelivered
    ensures |r.states| == |r.actions| + 1
    ensures var row, tries := r.states[i].tasks[t], TriesOf(cfg, r, i, t);
            && (forall k :: 0 <= k < |tries| - 1 ==> Again(tries[k]))
            && (if Configured(cfg, row) then |tries| <= Entitled(cfg, row) else tries == [])
            && (row.status == TaskSucceeded ==> tries != [] && Delivered(tries[|tries| - 1]))
            && (row.status == TaskDeadLetter ==>
                  || !Configured(cfg, row)
                  || (tries != [] && Refused(tries[|tries| - 1]))
                  || (|tries| == Entitled(cfg, row) && forall k :: 0 <= k < |tries| ==> Again(tries[k])))
  {
    StoredRetriesAreBounded(cfg, r, i, t);
    OnceInRuns(cfg, r, i, t);
    hide IsRun, Again, Refused, Delivered;
  }

  function Answers(tries: seq<Try>): nat {
    if tries == [] then 0
    else Answers(tries[..|tries| - 1]) + (if tries[|tries| - 1].Answered? then 1 else 0)
  }

  lemma {:induction false} AllAnswered(tries: seq<Try>)
    requires forall k :: 0 <= k < |tries| ==> tries[k].Answered?
    ensures Answers(tries) == |tries|
  {
    if tries != [] { AllAnswered(tries[..|tries| - 1]); }
  }

  /** In any run, the vendor requests counted for a task are its tries but for those that were not built. */
  lemma {:induction false} CallsAreAnswers(cfg: Config, r: Run, i: nat, t: nat)
    requires IsRun(cfg, r) && i < |r.states|
    ensures |r.states| == |r.actions| + 1
    ensures r.states[i].history.calls[t] == Answers(TriesOf(cfg, r, i, t))
    ensures t in r.states[i].history.accepted <==> SomeDelivered(TriesOf(cfg, r, i, t))
  {
    RunLength(cfg, r);
    if i > 0 {
      RunStep(cfg, r, i - 1);
      CallsAreAnswers(cfg, r, i - 1, t);
      hide IsRun, Next, Enabled;
      var tries, more := TriesOf(cfg, r, i - 1, t), TryOf(cfg, r.states[i - 1], r.actions[i - 1], t);
      StepCounts(cfg, r.states[i - 1], r.actions[i - 1], t);
      hide TryOf;
      MoreAnswers(tries, more);
    }
  }

  lemma MoreAnswers(tries: seq<Try>, more: seq<Try>)
    requires |more| <= 1
    ensures more == [] ==> tries + more == tries
    ensures more != [] ==> Answers(tries + more) == Answers(tries) + (if more[0].Answered? then 1 else 0)
    ensures more != [] ==> (SomeDelivered(tries + more) <==> SomeDelivered(tries) || Delivered(more[0]))
  {
    if more == [] {
      NoMoreTries(tries);
    } else {
      assert more == [more[0]] && (tries + more)[..|tries|] == tries;
      DeliveredGrows(tries, more[0]);
      hide SomeDelivered;
    }
  }

  lemma DeliveredGrows(tries: seq<Try>, x: Try)
    ensures SomeDelivered(tries + [x]) <==> SomeDelivered(tries) || Delivered(x)
  {
    assert (tries + [x])[|tries|] == x;
    if SomeDelivered(tries) {
      var k :| 0 <= k < |tries| && Delivered(tries[k]);
      assert (tries + [x])[k] == tries[k];
    }
  }

  ghost predicate CountsTries(h: History, h': History, t: nat, more: seq<Try>) {
    if more == [] then h'.calls[t] == h.calls[t] && (t in h'.accepted <==> t in h.accepted)
    else
      && h'.calls[t] == h.calls[t] + (if more[0].Answered? then 1 else 0)
      && (t in h'.accepted <==> t in h.accepted || Delivered(more[0]))
  }

  lemma StepCounts(cfg: Config, s: State, a: Action, t: nat)
    requires Enabled(cfg, s, a)
    ensures CountsTries(s.history, Next(cfg, s, a).history, t, TryOf(cfg, s, a, t))
  {
    hide WorkerAfter, DispatcherAfter, TasksAfterWork, TasksAfterDispatch, NotificationsAfterDispatch,
        NotificationsAfterWork;
    hide RetryQueueAfterWork, StageAfterFault, DispatchEnabled;
    if a.Work? && a.ok {
      hide CountsTries, HistoryAfterWork;
      WorkCounts(cfg, s, a.worker, a.built, a.outcome, t);
    } else {
      hide HistoryAfterWork, Delivered;
    }
  }

  lemma WorkCounts(cfg: Config, s: State, w: nat, built: bool, outcome: Outcome, t: nat)
    requires WorkEnabled(s, w)
    ensures CountsTries(s.history, HistoryAfterWork(s.history, s.workers[w].task, s.workers[w].stage, outcome), t,
                        TryOf(cfg, s, Work(w, true, built, outcome), t))
  {
  }

  /** A configured task whose every try was answered, and to no avail, got all the calls it is entitled to. */
  lemma EveryCallIsMade(cfg: Config, r: Run, i: nat, t: nat)
    requires IsRun(cfg, r) && i < |r.states| && t in r.states[i].tasks && t !in r.states[i].history.redelivered
    requires i <= |r.actions| && r.states[i].tasks[t].status == TaskDeadLetter && Configured(cfg, r.states[i].tasks[t])
    requires forall k :: 0 <= k < |TriesOf(cfg, r, i, t)| ==>
      TriesOf(cfg, r, i, t)[k].Answered? && Again(TriesOf(cfg, r, i, t)[k])
    ensures r.states[i].history.calls[t] == Entitled(cfg, r.states[i].tasks[t])
  {
    TriesAreExact(cfg, r, i, t);
    CallsAreAnswers(cfg, r, i, t);
    AllAnswered(TriesOf(cfg, r, i, t));
    hide IsRun;
  }
}
