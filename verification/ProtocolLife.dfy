/** Live tasks: what keeps the message of a task, or a worker that may still write it, in being. */
module ProtocolLife {
  import opened Protocol
  import opened ProtocolInvariants

  predicate Publishing(pc: Dispatcher, n: nat, t: nat) {
    pc.Dispatching? && pc.notification == n && pc.stage.PublishTasks? && t in pc.stage.remaining
  }

  /** A worker either keeps its task alive, or has written it and goes on to resolve its notification. */
  lemma WorkKeepsLife(cfg: Config, s: State, w: nat, built: bool, outcome: Outcome, t: nat)
    requires WorkEnabled(s, w) && SnapshotOk(cfg, s, s.workers[w].task, s.workers[w].stage) && RowsOk(cfg, s)
    requires Live(s, t)
    ensures var s' := WorkNext(cfg, s, w, built, outcome);
            || Live(s', t)
            || (t in s'.tasks && t in s.tasks && Terminal(s'.tasks[t].status) &&
                Resolving(s'.workers[w], s.tasks[t].notification))
  {
    var s' := WorkNext(cfg, s, w, built, outcome);
    if Queued(s, t) {
      WorkKeepsQueued(cfg, s, w, built, outcome, t);
    } else {
      var v :| v in s.workers && Active(s.workers[v], t);
      if v == w {
        HolderGoesOn(cfg, s, w, built, outcome);
      } else {
        assert s'.workers == s.workers[w := s'.workers[w]];
        hide WorkNext;
        assert v in s'.workers && Active(s'.workers[v], t);
      }
    }
  }

  lemma WorkKeepsQueued(cfg: Config, s: State, w: nat, built: bool, outcome: Outcome, t: nat)
    requires WorkEnabled(s, w) && Queued(s, t)
    ensures Queued(WorkNext(cfg, s, w, built, outcome), t)
  {
    hide WorkerAfter, TasksAfterWork, HistoryAfterWork;
  }

  lemma HolderGoesOn(cfg: Config, s: State, w: nat, built: bool, outcome: Outcome)
    requires WorkEnabled(s, w) && SnapshotOk(cfg, s, s.workers[w].task, s.workers[w].stage) && RowsOk(cfg, s)
    requires Active(s.workers[w], s.workers[w].task)
    ensures var s', t := WorkNext(cfg, s, w, built, outcome), s.workers[w].task;
            || (w in s'.workers && Active(s'.workers[w], t)) || Queued(s', t)
            || (t in s'.tasks && t in s.tasks && Terminal(s'.tasks[t].status) &&
                Resolving(s'.workers[w], s.tasks[t].notification))
  {
    hide CountVerdict, HistoryAfterWork, NotificationsAfterWork;
    assert s.tasks[s.workers[w].task].notification in s.notifications;
  }

  lemma WorkTouches(cfg: Config, s: State, w: nat, built: bool, outcome: Outcome)
    requires WorkEnabled(s, w)
    ensures var s' := WorkNext(cfg, s, w, built, outcome);
            && w in s'.workers && s'.workers == s.workers[w := s'.workers[w]]
            && s'.history.published == s.history.published && s'.tasks.Keys == s.tasks.Keys
            && s'.notifications.Keys == s.notifications.Keys
  {
    hide WorkerAfter;
  }

  lemma StructureMeans(cfg: Config, s: State)
    ensures Structure(cfg, s) ==> RowsOk(cfg, s) && PublishedOk(s) && WorkersOk(cfg, s)
  {
  }

  lemma RowsHaveVendors(cfg: Config, s: State)
    requires Structure(cfg, s)
    ensures forall t :: t in s.tasks ==> VendorsOf(cfg, s.notifications, s.tasks[t].notification) != []
  {
  }
}
