/** No queued task is lost: a marker does not outlive its TTL, and the next full recovery
    pass sees to it that the task is in the ready list, on its way there, or was handed to a
    worker, whatever crashed between Redis commands before. */
module Recovery {
  import opened Basics
  import opened TaskRecord
  import opened TaskQueue
  import opened Graph
  import opened Protocol
  import opened Lifecycle

  /** The action creates the marker of a task. */
  predicate Sets(s: Sys, a: Action, id: Id) {
    RedisCommand(s, a) == Some(SetMarker(id)) && !Live(s.redis.markers, id, s.now)
  }

  /** The action hands a task from the ready list to a worker. */
  predicate Pops(s: Sys, a: Action, id: Id) {
    RedisCommand(s, a) == Some(PopReady) && s.redis.ready != [] && s.redis.ready[|s.redis.ready| - 1] == id
  }

  ghost predicate Popped(s: Sys, more: seq<Action>, id: Id) {
    more != [] &&
    (Popped(s, more[..|more| - 1], id) || Pops(Steps(s, more[..|more| - 1]), more[|more| - 1], id))
  }

  // ---- markers ----

  /** No marker outlives its TTL, and every task is in the creation order. */
  ghost predicate MarkersBounded(s: Sys) {
    && (forall id :: id in s.redis.markers ==> s.redis.markers[id] <= s.now + s.cfg.markerTtl)
    && (forall id :: id in s.tasks ==> id in s.created)
  }

  lemma BoundedStep(s: Sys, a: Action)
    requires MarkersBounded(s)
    ensures MarkersBounded(Step(s, a))
  {
  }

  lemma {:induction false} ReachableBounded(cfg: Config, n: nat, acts: seq<Action>)
    ensures MarkersBounded(Run(cfg, n, acts))
  {
    if acts != [] {
      ReachableBounded(cfg, n, acts[..|acts| - 1]);
      BoundedStep(Run(cfg, n, acts[..|acts| - 1]), acts[|acts| - 1]);
    }
  }

  predicate LiveIn(s: Sys, id: Id) { Live(s.redis.markers, id, s.now) }

  /** While a marker is live, no action of anyone renews it. */
  lemma LiveNotRenewed(s: Sys, a: Action, id: Id)
    requires LiveIn(s, id) && id in Step(s, a).redis.markers
    ensures Step(s, a).redis.markers[id] == s.redis.markers[id]
  {
  }

  ghost predicate LiveThroughout(s: Sys, more: seq<Action>, id: Id) {
    LiveIn(Steps(s, more), id) && (more == [] || LiveThroughout(s, more[..|more| - 1], id))
  }

  /** A marker that stays live keeps its time of expiry, whatever callers and workers do. */
  lemma {:induction false} MarkerNotRenewed(s: Sys, more: seq<Action>, id: Id)
    requires LiveThroughout(s, more, id)
    ensures id in s.redis.markers && Steps(s, more).redis.markers[id] == s.redis.markers[id]
  {
    if more != [] {
      MarkerNotRenewed(s, more[..|more| - 1], id);
      LiveNotRenewed(Steps(s, more[..|more| - 1]), more[|more| - 1], id);
    }
  }

  /** So from any reachable state it has lapsed, or was deleted, within its TTL. */
  lemma MarkerLapses(cfg: Config, n: nat, acts: seq<Action>, wait: seq<Action>, id: Id)
    requires Steps(Run(cfg, n, acts), wait).now >= Run(cfg, n, acts).now + cfg.markerTtl
    ensures !LiveThroughout(Run(cfg, n, acts), wait, id)
  {
    ReachableBounded(cfg, n, acts);
    CfgKept(Init(cfg, n), acts);
    if LiveThroughout(Run(cfg, n, acts), wait, id) { MarkerNotRenewed(Run(cfg, n, acts), wait, id); }
  }

  // ---- an enqueue between its marker and its push ----

  predicate MidEnqueue(at: EnqueueStep) { at == AtDrop || at == AtPush }

  predicate CallerPushing(s: Sys, i: nat, id: Id) {
    i < |s.callers| && s.callers[i].Enqueuing? && s.callers[i].id == id && MidEnqueue(s.callers[i].at)
  }

  predicate WorkerPushing(s: Sys, w: nat, id: Id) {
    && w < |s.workers| && s.workers[w].Requeuing? && s.workers[w].todo != [] && s.workers[w].todo[0] == id
    && MidEnqueue(s.workers[w].at)
  }

  ghost predicate Pushing(s: Sys, id: Id) {
    (exists i: nat :: CallerPushing(s, i, id)) || (exists w: nat :: WorkerPushing(s, w, id))
  }

  /** An enqueue of the task fails after it set the marker: an error or a crash before the
      push, or a marker set by a command whose reply was lost. */
  predicate Aborts(s: Sys, a: Action, id: Id) {
    || (Sets(s, a, id) && (a.Fault? || a.CallerFault?))
    || (a.CallerFault? && CallerPushing(s, a.i, id)) || (a.CallerCrash? && CallerPushing(s, a.i, id))
    || (a.Fault? && WorkerPushing(s, a.w, id)) || (a.Crash? && WorkerPushing(s, a.w, id))
  }

  ghost predicate NoneAborts(s: Sys, more: seq<Action>, id: Id) {
    more == [] ||
    (NoneAborts(s, more[..|more| - 1], id) && !Aborts(Steps(s, more[..|more| - 1]), more[|more| - 1], id))
  }

  /** The task is in the ready list or an enqueue will put it there. */
  ghost predicate Safe(s: Sys, id: Id) { id in s.redis.ready || Pushing(s, id) }

  /** An action that pushes the task puts it into the ready list, and only a pop takes it out. */
  lemma ReadyStep(s: Sys, a: Action, id: Id)
    ensures id in s.redis.ready && !Pops(s, a, id) ==> id in Step(s, a).redis.ready
    ensures RedisCommand(s, a) == Some(PushReady(id)) ==> id in Step(s, a).redis.ready
  {
  }

  lemma CallerPushes(s: Sys, a: Action, i: nat, id: Id)
    requires CallerPushing(s, i, id) && !Aborts(s, a, id)
    ensures CallerPushing(Step(s, a), i, id) || RedisCommand(s, a) == Some(PushReady(id))
  {
  }

  lemma WorkerPushes(s: Sys, a: Action, w: nat, id: Id)
    requires WorkerPushing(s, w, id) && !Aborts(s, a, id)
    ensures WorkerPushing(Step(s, a), w, id) || RedisCommand(s, a) == Some(PushReady(id))
  {
  }

  /** A set marker is followed by its push. */
  lemma SetStarts(s: Sys, a: Action, id: Id)
    requires Sets(s, a, id) && !Aborts(s, a, id)
    ensures Pushing(Step(s, a), id)
  {
    if a.CallerStep? {
      assert CallerPushing(Step(s, a), a.i, id);
    } else {
      assert WorkerPushing(Step(s, a), a.w, id);
    }
  }

  lemma SafeStep(s: Sys, a: Action, id: Id)
    requires Safe(s, id) && !Aborts(s, a, id) && !Pops(s, a, id)
    ensures Safe(Step(s, a), id)
  {
    ReadyStep(s, a, id);
    if id !in s.redis.ready {
      if i: nat :| CallerPushing(s, i, id) {
        CallerPushes(s, a, i, id);
      } else {
        var w: nat :| WorkerPushing(s, w, id);
        WorkerPushes(s, a, w, id);
      }
    }
  }

  // ---- waiting for the marker ----

  /** The marker, if there is one, is the one that was there at the start. */
  predicate SameMarker(s: Sys, t: Sys, id: Id) {
    id in t.redis.markers ==> id in s.redis.markers && t.redis.markers[id] == s.redis.markers[id]
  }

  lemma MarkerStep(s: Sys, a: Action, id: Id)
    requires !Sets(s, a, id)
    ensures SameMarker(s, Step(s, a), id)
  {
  }

  /** Whatever happens meanwhile: the task was popped, is safe, or its marker is no newer. */
  lemma {:induction false} Waited(s: Sys, wait: seq<Action>, id: Id)
    requires NoneAborts(s, wait, id)
    ensures Popped(s, wait, id) || Safe(Steps(s, wait), id) || SameMarker(s, Steps(s, wait), id)
  {
    if wait != [] {
      var init, a := wait[..|wait| - 1], wait[|wait| - 1];
      var t := Steps(s, init);
      Waited(s, init, id);
      if !Popped(s, wait, id) {
        if Safe(t, id) {
          SafeStep(t, a, id);
        } else if Sets(t, a, id) {
          SetStarts(t, a, id);
        } else {
          MarkerStep(t, a, id);
        }
      }
    }
  }

  // ---- the recovery pass ----

  /** The pass of worker w has still to come to the task, and the marker is free. */
  predicate Ahead(s: Sys, w: nat, id: Id) {
    && w < |s.workers| && s.workers[w].Requeuing? && s.workers[w].todo != []
    && (id in s.workers[w].todo[1..] || (id == s.workers[w].todo[0] && s.workers[w].at == AtMarker))
    && s.workers[w].at != AtUndo
    && !LiveIn(s, id)
  }

  /** A worker that meets no failure in the stretch. */
  ghost predicate Undisturbed(more: seq<Action>, w: nat) {
    forall a :: a in more ==> a != Crash(w) && !(a.Fault? && a.w == w)
  }

  /** Until someone sets the marker, the pass comes closer to the task. */
  lemma AheadStep(s: Sys, a: Action, w: nat, id: Id)
    requires Ahead(s, w, id) && !Sets(s, a, id) && a != Crash(w) && !(a.Fault? && a.w == w)
    ensures Ahead(Step(s, a), w, id)
  {
    MarkerStep(s, a, id);
    if a.Work? && a.w == w { AheadOwnStep(s, a.choice, w, id); }
  }

  lemma AheadOwnStep(s: Sys, c: Choice, w: nat, id: Id)
    requires Ahead(s, w, id) && !Sets(s, Work(w, c), id)
    ensures Ahead(Step(s, Work(w, c)), w, id)
  {
    var rest := s.workers[w].todo[1..];
    if rest != [] { assert rest == [rest[0]] + rest[1..]; }
  }

  lemma {:induction false} Passed(s: Sys, pass: seq<Action>, w: nat, id: Id)
    requires Ahead(s, w, id) || Safe(s, id)
    requires Undisturbed(pass, w) && NoneAborts(s, pass, id)
    ensures Popped(s, pass, id) || Safe(Steps(s, pass), id) || Ahead(Steps(s, pass), w, id)
  {
    if pass != [] {
      var init, a := pass[..|pass| - 1], pass[|pass| - 1];
      assert pass == init + [a];
      var t := Steps(s, init);
      Passed(s, init, w, id);
      if !Popped(s, pass, id) {
        if Safe(t, id) {
          SafeStep(t, a, id);
        } else if Sets(t, a, id) {
          SetStarts(t, a, id);
        } else {
          AheadStep(t, a, w, id);
        }
      }
    }
  }

  predicate AtWork(s: Sys, w: nat, worker: Worker) { w < |s.workers| && s.workers[w] == worker }

  /** Listing the queued tasks puts each of them ahead of the pass. */
  lemma ListedAhead(t: Sys, c: Choice, w: nat, id: Id)
    requires AtWork(t, w, Expiring([])) && HasStatus(t, id, Queued) && id in t.created
    requires |Select(t, t.created, Queued)| <= t.cfg.recoveryLimit && !LiveIn(t, id)
    ensures Ahead(Step(t, Work(w, c)), w, id)
  {
  }

  /** From any reachable state: let a marker's TTL pass, and then a recovery pass list the
      queued tasks (no more of them than its limit) and meet no failure.  Whatever callers and
      other workers do meanwhile, as long as no enqueue of the task fails between its marker
      and its push, each listed task was handed to a worker, or is in the ready list, or an
      enqueue that has set its marker is about to put it there. */
  lemma NoQueuedTaskLost(cfg: Config, n: nat, acts: seq<Action>, wait: seq<Action>, c: Choice,
                         pass: seq<Action>, w: nat, id: Id)
    requires var s, t := Run(cfg, n, acts), Run(cfg, n, acts + wait);
      && NoneAborts(s, wait, id) && t.now >= s.now + cfg.markerTtl
      && AtWork(t, w, Expiring([])) && HasStatus(t, id, Queued)
      && |Select(t, t.created, Queued)| <= cfg.recoveryLimit
    requires var t' := Step(Run(cfg, n, acts + wait), Work(w, c));
      Undisturbed(pass, w) && NoneAborts(t', pass, id) && AtWork(Steps(t', pass), w, Idle)
    ensures var s, t' := Run(cfg, n, acts), Step(Run(cfg, n, acts + wait), Work(w, c));
      Popped(s, wait, id) || Popped(t', pass, id) || Safe(Steps(t', pass), id)
  {
    var s, t := Run(cfg, n, acts), Run(cfg, n, acts + wait);
    RunConcat(cfg, n, acts, wait);
    Waited(s, wait, id);
    if !Popped(s, wait, id) {
      PassBegins(cfg, n, acts, wait, c, w, id);
      Passed(Step(t, Work(w, c)), pass, w, id);
    }
  }

  lemma PassBegins(cfg: Config, n: nat, acts: seq<Action>, wait: seq<Action>, c: Choice, w: nat, id: Id)
    requires var s, t := Run(cfg, n, acts), Run(cfg, n, acts + wait);
      && t.now >= s.now + cfg.markerTtl && (Safe(t, id) || SameMarker(s, t, id))
      && AtWork(t, w, Expiring([])) && HasStatus(t, id, Queued)
      && |Select(t, t.created, Queued)| <= cfg.recoveryLimit
    ensures var t' := Step(Run(cfg, n, acts + wait), Work(w, c)); Ahead(t', w, id) || Safe(t', id)
  {
    var t := Run(cfg, n, acts + wait);
    if Safe(t, id) {
      SafeStep(t, Work(w, c), id);
    } else {
      ReachableBounded(cfg, n, acts);
      ReachableBounded(cfg, n, acts + wait);
      CfgKept(Init(cfg, n), acts);
      CfgKept(Init(cfg, n), acts + wait);
      ListedAhead(t, c, w, id);
    }
  }
}
