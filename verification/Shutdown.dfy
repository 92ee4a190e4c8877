/**
  Starting and stopping the worker pool: the consume loops, the close signal, the context, the two
  wait groups and the two ways out of `Stop`, as a transition system over any number of workers.
 */
module Shutdown {

  /** Where a worker's loop stands with the message it received. */
  datatype Loop =
    | Selecting
    | Received(message: nat)
    | Processing(message: nat)   // inside ProcessMessage, counted by processWg
    | Settling(message: nat)     // about to acknowledge or reject
    | Gone

  /** The call of `Stop`; the fallback waits again, after cancelling the context. */
  datatype Stop =
    | NotCalled
    | Waiting
    | FallbackWorkers
    | FallbackProcesses
    | Returned(timedOut: bool)

  /** The goroutine that waits for both groups on behalf of `Stop`. */
  datatype Waiter = Off | OnWorkers | OnProcesses | Done

  datatype State = State(
    toStart: nat,                // workers that `Start` has yet to launch
    workers: map<nat, Loop>,
    wg: int,
    processWg: int,
    closed: bool,                // closeCh
    cancelled: bool,             // ctx
    drained: bool,               // the delivery channel was closed
    stop: Stop,
    waiter: Waiter,
    received: set<nat>,
    settled: set<nat>)

  datatype Action =
    | Launch(worker: nat)
    | Receive(worker: nat, message: nat)
    | Quit(worker: nat)
    | Enter(worker: nat)         // ProcessMessage begins
    | Unparsable(worker: nat)    // rejected without being processed
    | Leave(worker: nat)         // ProcessMessage returns
    | Settle(worker: nat)
    | Drain
    | CallStop
    | WaiterMoves
    | StopSeesDone
    | StopTimesOut
    | StopMoves

  predicate Is(s: State, w: nat, loop: Loop) { w in s.workers && s.workers[w] == loop }

  predicate Enabled(s: State, a: Action) {
    match a
    case Launch(w) => s.toStart > 0 && w !in s.workers
    // every delivery has a tag of its own
    case Receive(w, m) => Is(s, w, Selecting) && !s.drained && m !in s.received
    case Quit(w) => Is(s, w, Selecting) && (s.closed || s.cancelled || s.drained)
    case Enter(w) => w in s.workers && s.workers[w].Received?
    case Unparsable(w) => w in s.workers && s.workers[w].Received?
    case Leave(w) => w in s.workers && s.workers[w].Processing?
    case Settle(w) => w in s.workers && s.workers[w].Settling?
    case Drain => !s.drained
    case CallStop => s.stop == NotCalled && s.toStart == 0
    case WaiterMoves => (s.waiter == OnWorkers && s.wg == 0) || (s.waiter == OnProcesses && s.processWg == 0)
    case StopSeesDone => s.stop == Waiting && s.waiter == Done
    case StopTimesOut => s.stop == Waiting
    case StopMoves => (s.stop == FallbackWorkers && s.wg == 0) || (s.stop == FallbackProcesses && s.processWg == 0)
  }

  function Next(s: State, a: Action): State
    requires Enabled(s, a)
  {
    match a
    case Launch(w) => s.(toStart := s.toStart - 1, wg := s.wg + 1, workers := s.workers[w := Selecting])
    case Receive(w, m) => s.(workers := s.workers[w := Received(m)], received := s.received + {m})
    case Quit(w) => s.(workers := s.workers[w := Gone], wg := s.wg - 1)
    case Enter(w) => s.(workers := s.workers[w := Processing(s.workers[w].message)], processWg := s.processWg + 1)
    case Unparsable(w) => s.(workers := s.workers[w := Settling(s.workers[w].message)])
    case Leave(w) => s.(workers := s.workers[w := Settling(s.workers[w].message)], processWg := s.processWg - 1)
    case Settle(w) => s.(workers := s.workers[w := Selecting], settled := s.settled + {s.workers[w].message})
    case Drain => s.(drained := true)
    case CallStop => s.(closed := true, stop := Waiting, waiter := OnWorkers)
    case WaiterMoves => s.(waiter := if s.waiter == OnWorkers then OnProcesses else Done)
    case StopSeesDone => s.(stop := Returned(false))
    case StopTimesOut => s.(stop := FallbackWorkers, cancelled := true)
    case StopMoves => s.(stop := if s.stop == FallbackWorkers then FallbackProcesses else Returned(true))
  }

  predicate Init(s: State) {
    && s.workers == map[] && s.wg == s.processWg == 0
    && !s.closed && !s.cancelled && !s.drained
    && s.stop == NotCalled && s.waiter == Off && s.received == s.settled == {}
  }

  ghost predicate IsRun(states: seq<State>, actions: seq<Action>) {
    && |states| == |actions| + 1 && Init(states[0])
    && forall i :: 0 <= i < |actions| ==> Enabled(states[i], actions[i]) && states[i + 1] == Next(states[i], actions[i])
  }

  // ---- What every step keeps ----

  function Alive(workers: map<nat, Loop>): set<nat> {
    set w | w in workers && workers[w] != Gone
  }

  function Inside(workers: map<nat, Loop>): set<nat> {
    set w | w in workers && workers[w].Processing?
  }

  predicate Holds(loop: Loop, m: nat) {
    (loop.Received? || loop.Processing? || loop.Settling?) && loop.message == m
  }

  /** The wait groups count what they are meant to count. */
  ghost predicate Counts(s: State) {
    s.wg == |Alive(s.workers)| && s.processWg == |Inside(s.workers)|
  }

  /** A received message is settled or in the hands of exactly one worker, not both. */
  ghost predicate Messages(s: State) {
    && s.settled <= s.received
    && (forall w, m :: w in s.workers && Holds(s.workers[w], m) ==> m in s.received && m !in s.settled)
    && (forall v, w, m :: v in s.workers && w in s.workers && Holds(s.workers[v], m) && Holds(s.workers[w], m) ==>
        v == w)
    && (forall m :: m in s.received && m !in s.settled ==> exists w :: w in s.workers && Holds(s.workers[w], m))
  }

  /** No worker is left, and none will come. */
  predicate Empty(s: State) {
    s.toStart == 0 && forall w :: w in s.workers ==> s.workers[w] == Gone
  }

  /** Whoever is past a wait has seen the pool empty; `Stop` is called once `Start` has returned. */
  predicate Waits(s: State) {
    && (s.stop != NotCalled ==> s.toStart == 0 && s.closed)
    && (s.stop == NotCalled ==> s.waiter == Off)
    && (s.stop == Waiting ==> s.waiter != Off)
    && (s.waiter == OnProcesses || s.waiter == Done ==> Empty(s))
    && (s.stop == FallbackProcesses || s.stop.Returned? ==> Empty(s))
    && (s.stop == FallbackWorkers || s.stop == FallbackProcesses || s.stop == Returned(true) ==> s.cancelled)
  }

  ghost predicate Inv(s: State) { Counts(s) && Messages(s) && Waits(s) }

  lemma CountsKept(s: State, a: Action)
    requires Enabled(s, a) && Counts(s)
    ensures Counts(Next(s, a))
  {
    if a.Launch? || a.Receive? || a.Quit? || a.Enter? || a.Unparsable? || a.Leave? || a.Settle? {
      CountsMove(s.workers, a.worker, Next(s, a).workers[a.worker]);
    }
    hide Alive, Inside;
  }

  lemma CountsMove(workers: map<nat, Loop>, w: nat, loop: Loop)
    ensures
      |Alive(workers[w := loop])| == |Alive(workers)|
        + (if loop != Gone then 1 else 0) - (if w in workers && workers[w] != Gone then 1 else 0)
    ensures
      |Inside(workers[w := loop])| == |Inside(workers)|
        + (if loop.Processing? then 1 else 0) - (if w in workers && workers[w].Processing? then 1 else 0)
  {
    var now := workers[w := loop];
    OnlyOneDiffers(Alive(workers), Alive(now), w);
    OnlyOneDiffers(Inside(workers), Inside(now), w);
  }

  lemma OnlyOneDiffers(a: set<nat>, b: set<nat>, w: nat)
    requires forall x :: x != w ==> (x in a <==> x in b)
    ensures |b| == |a| + (if w in b then 1 else 0) - (if w in a then 1 else 0)
  {
    var rest := a - {w};
    assert b - {w} == rest;
    assert |a| == |rest| + if w in a then 1 else 0;
    assert |b| == |rest| + if w in b then 1 else 0;
  }

  lemma MessagesKept(s: State, a: Action)
    requires Enabled(s, a) && Messages(s)
    ensures Messages(Next(s, a))
  {
    var s' := Next(s, a);
    if a.Receive? {
      ReceiveKeepsMessages(s, a.worker, a.message);
    } else if a.Settle? {
      SettleKeepsMessages(s, a.worker);
    } else if a.Launch? || a.Quit? || a.Enter? || a.Unparsable? || a.Leave? {
      HandsUnchanged(s, s', a.worker);
    }
  }

  /** The worker holds the same message as before, or still none. */
  lemma HandsUnchanged(s: State, s': State, w: nat)
    requires Messages(s) && s'.received == s.received && s'.settled == s.settled
    requires w in s'.workers && s'.workers == s.workers[w := s'.workers[w]]
    requires forall m :: Holds(s'.workers[w], m) <==> w in s.workers && Holds(s.workers[w], m)
    ensures Messages(s')
  {
    assert forall v, m :: v in s'.workers && Holds(s'.workers[v], m) ==> v in s.workers && Holds(s.workers[v], m);
    forall m | m in s.received && m !in s.settled ensures exists v :: v in s'.workers && Holds(s'.workers[v], m) {
      var v :| v in s.workers && Holds(s.workers[v], m);
      assert Holds(s'.workers[v], m);
    }
    hide Holds;
  }

  lemma ReceiveKeepsMessages(s: State, w: nat, m: nat)
    requires Messages(s) && Enabled(s, Receive(w, m))
    ensures Messages(Next(s, Receive(w, m)))
  {
    var s' := Next(s, Receive(w, m));
    forall x | x in s'.received && x !in s'.settled ensures exists v :: v in s'.workers && Holds(s'.workers[v], x) {
      if x == m {
        assert Holds(s'.workers[w], x);
      } else {
        var v :| v in s.workers && Holds(s.workers[v], x);
        assert Holds(s'.workers[v], x);
      }
    }
  }

  lemma SettleKeepsMessages(s: State, w: nat)
    requires Messages(s) && Enabled(s, Settle(w))
    ensures Messages(Next(s, Settle(w)))
  {
    var s' := Next(s, Settle(w));
    forall x | x in s'.received && x !in s'.settled ensures exists v :: v in s'.workers && Holds(s'.workers[v], x) {
      var v :| v in s.workers && Holds(s.workers[v], x);
      assert Holds(s'.workers[v], x);
    }
  }

  lemma WaitsKept(s: State, a: Action)
    requires Enabled(s, a) && Waits(s) && Counts(s)
    ensures Waits(Next(s, a))
    ensures Empty(s) ==> Empty(Next(s, a)) && Next(s, a).received == s.received && Next(s, a).settled == s.settled
  {
    if s.wg == 0 { NobodyAlive(s.workers); }
  }

  lemma NobodyAlive(workers: map<nat, Loop>)
    requires |Alive(workers)| == 0
    ensures forall w :: w in workers ==> workers[w] == Gone
  {
    forall w | w in workers ensures workers[w] == Gone {
      assert w !in Alive(workers);
    }
  }

  lemma RunLength(states: seq<State>, actions: seq<Action>)
    requires IsRun(states, actions)
    ensures |states| == |actions| + 1 && Init(states[0])
  {
  }

  lemma InvKept(s: State, a: Action)
    requires Inv(s) && Enabled(s, a)
    ensures Inv(Next(s, a))
  {
    CountsKept(s, a);
    MessagesKept(s, a);
    WaitsKept(s, a);
    hide Counts, Messages, Waits, Enabled, Next;
  }

  lemma InvInitially(s: State)
    requires Init(s)
    ensures Inv(s)
  {
  }

  lemma {:induction false} InvInRuns(states: seq<State>, actions: seq<Action>, i: nat)
    requires IsRun(states, actions) && i < |states|
    ensures Inv(states[i])
  {
    hide Inv, Enabled, Next;
    if i == 0 {
      InvInitially(states[0]);
    } else {
      InvInRuns(states, actions, i - 1);
      assert Enabled(states[i - 1], actions[i - 1]) && states[i] == Next(states[i - 1], actions[i - 1]);
      InvKept(states[i - 1], actions[i - 1]);
    }
  }

  lemma RunStep(states: seq<State>, actions: seq<Action>, i: nat)
    requires IsRun(states, actions) && i < |actions|
    ensures |states| == |actions| + 1 && Enabled(states[i], actions[i]) && states[i + 1] == Next(states[i], actions[i])
    ensures Inv(states[i]) && Waits(states[i]) && Counts(states[i])
  {
    hide Enabled, Next;
    InvInRuns(states, actions, i);
    hide Waits, Counts, Messages;
  }

  // ---- After Stop ----

  /**
    Once `Stop` has returned, on time or not, no worker is inside `ProcessMessage` or still in its
    loop, and every message that was ever received has been settled.
   */
  lemma StopIsGraceful(states: seq<State>, actions: seq<Action>, i: nat)
    requires IsRun(states, actions) && i < |states| && states[i].stop.Returned?
    ensures Inside(states[i].workers) == {} && Alive(states[i].workers) == {}
    ensures states[i].settled == states[i].received
  {
    InvInRuns(states, actions, i);
  }

  /** And from then on no further message is received. */
  lemma {:induction false} NothingIsConsumedAfterStop(states: seq<State>, actions: seq<Action>, i: nat, j: nat)
    requires IsRun(states, actions) && i <= j < |states| && states[i].stop.Returned?
    ensures states[j].received == states[i].received && states[j].settled == states[i].settled && Empty(states[j])
    decreases j - i
  {
    hide *;
    RunLength(states, actions);
    if i == j {
      ReturnedIsEmpty(states, actions, i);
    } else {
      NothingIsConsumedAfterStop(states, actions, i, j - 1);
      RunStep(states, actions, j - 1);
      WaitsKept(states[j - 1], actions[j - 1]);
    }
  }

  lemma ReturnedIsEmpty(states: seq<State>, actions: seq<Action>, i: nat)
    requires IsRun(states, actions) && i < |states| && states[i].stop.Returned?
    ensures Empty(states[i])
  {
    InvInRuns(states, actions, i);
  }

  /** No message is settled twice: a settling worker's message was not settled before. */
  lemma SettledOnce(states: seq<State>, actions: seq<Action>, i: nat)
    requires IsRun(states, actions) && i < |actions| && actions[i].Settle?
    ensures states[i].workers[actions[i].worker].message in states[i].received - states[i].settled
  {
    InvInRuns(states, actions, i);
    assert Enabled(states[i], actions[i]);
    assert Holds(states[i].workers[actions[i].worker], states[i].workers[actions[i].worker].message);
  }

  /** A `Stop` that has not returned is never stuck: some step other than a timeout or a new message is possible. */
  lemma StopIsNeverStuck(states: seq<State>, actions: seq<Action>, i: nat)
    requires IsRun(states, actions) && i < |states| && states[i].stop != NotCalled && !states[i].stop.Returned?
    ensures exists a :: Enabled(states[i], a) && !a.StopTimesOut? && !a.Receive? && !a.Drain?
  {
    var s := states[i];
    InvInRuns(states, actions, i);
    if Alive(s.workers) == {} {
      assert Inside(s.workers) <= Alive(s.workers);
      assert Inside(s.workers) == {};
      assert Enabled(s, if s.stop == Waiting then (if s.waiter == Done then StopSeesDone else WaiterMoves)
          else StopMoves);
    } else {
      var w :| w in Alive(s.workers);
      assert Enabled(s,
        match s.workers[w]
        case Selecting => Quit(w)
        case Received(_) => Enter(w)
        case Processing(_) => Leave(w)
        case _ => Settle(w));
    }
  }

  // ---- Stop returns ----

  /** What is left of a worker's round, in steps. */
  function LoopRank(loop: Loop): nat {
    match loop
    case Received(_) => 4
    case Processing(_) => 3
    case Settling(_) => 2
    case Selecting => 1
    case Gone => 0
  }

  function StopRank(stop: Stop): nat {
    match stop
    case NotCalled => 4
    case Waiting => 3
    case FallbackWorkers => 2
    case FallbackProcesses => 1
    case Returned(_) => 0
  }

  function WaiterRank(waiter: Waiter): nat {
    match waiter
    case Off => 3
    case OnWorkers => 2
    case OnProcesses => 1
    case Done => 0
  }

  function AtLeast(workers: map<nat, Loop>, k: nat): set<nat> {
    set w | w in workers && LoopRank(workers[w]) >= k
  }

  /** The workers' ranks added up, level by level. */
  function WorkLeft(workers: map<nat, Loop>): nat {
    |AtLeast(workers, 1)| + |AtLeast(workers, 2)| + |AtLeast(workers, 3)| + |AtLeast(workers, 4)|
  }

  function Rank(s: State): int {
    2 * s.toStart + WorkLeft(s.workers) + WaiterRank(s.waiter) + StopRank(s.stop) + if s.drained then 0 else 1
  }

  lemma WorkLeftMoves(workers: map<nat, Loop>, w: nat, loop: Loop)
    ensures WorkLeft(workers[w := loop]) ==
      WorkLeft(workers) + LoopRank(loop) - if w in workers then LoopRank(workers[w]) else 0
  {
    var now := workers[w := loop];
    LevelMoves(workers, w, loop, 1);
    LevelMoves(workers, w, loop, 2);
    LevelMoves(workers, w, loop, 3);
    LevelMoves(workers, w, loop, 4);
    hide AtLeast;
  }

  lemma LevelMoves(workers: map<nat, Loop>, w: nat, loop: Loop, k: nat)
    requires k >= 1
    ensures |AtLeast(workers[w := loop], k)| == |AtLeast(workers, k)|
      + (if LoopRank(loop) >= k then 1 else 0) - (if w in workers && LoopRank(workers[w]) >= k then 1 else 0)
  {
    OnlyOneDiffers(AtLeast(workers, k), AtLeast(workers[w := loop], k), w);
  }

  /** Every step lowers the rank, except that receiving a message raises it by three. */
  lemma StepLowersRank(s: State, a: Action)
    requires Enabled(s, a) && Waits(s)
    ensures Rank(Next(s, a)) <= Rank(s) + if a.Receive? then 3 else -1
    ensures Rank(s) >= 0
  {
    if a.Launch? || a.Receive? || a.Quit? || a.Enter? || a.Unparsable? || a.Leave? || a.Settle? {
      WorkLeftMoves(s.workers, a.worker, Next(s, a).workers[a.worker]);
    }
    hide WorkLeft;
  }

  function Receipts(actions: seq<Action>): nat {
    if actions == [] then 0
    else Receipts(actions[..|actions| - 1]) + if actions[|actions| - 1].Receive? then 1 else 0
  }

  /**
    Any stretch of a run is bounded by the rank it starts with and the messages received in it. As
    some step is possible until `Stop` returns (`StopIsNeverStuck`), it returns once messages stop
    coming.
   */
  lemma {:induction false} StopReturns(states: seq<State>, actions: seq<Action>, i: nat, j: nat)
    requires IsRun(states, actions) && i <= j < |states|
    ensures j - i + Rank(states[j]) <= Rank(states[i]) + 4 * Receipts(actions[i..j])
    ensures Rank(states[j]) >= 0
    decreases j
  {
    hide *;
    RunLength(states, actions);
    RankIsNatural(states[j]);
    if i < j {
      StopReturns(states, actions, i, j - 1);
      RunStep(states, actions, j - 1);
      OneMoreReceipt(actions, i, j);
      StepLowersRank(states[j - 1], actions[j - 1]);
    } else {
      NoReceipts(actions[i..j]);
    }
  }

  lemma NoReceipts(actions: seq<Action>)
    requires actions == []
    ensures Receipts(actions) == 0
  {
  }

  lemma OneMoreReceipt(actions: seq<Action>, i: nat, j: nat)
    requires i < j <= |actions|
    ensures Receipts(actions[i..j]) == Receipts(actions[i..j - 1]) + if actions[j - 1].Receive? then 1 else 0
  {
    assert actions[i..j][..j - i - 1] == actions[i..j - 1];
  }

  lemma RankIsNatural(s: State)
    ensures Rank(s) >= 0
  {
  }
}
