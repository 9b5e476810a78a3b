/** The failure that recovery excludes does lose a pass: an enqueue that dies after its marker
    hides the queued task from it, however long ago the task became queued. */
module AbortedEnqueueTrace {
  import opened Basics
  import opened Schema
  import opened TaskRecord
  import opened TaskQueue
  import opened Graph
  import opened Protocol
  import opened Recovery

  /** What is followed of a state: one worker, task 0 out of the ready list, the calls, and a
      live marker once it is set. */
  ghost predicate Shows(s: Sys, now: nat, workers: seq<Worker>, callers: seq<Caller>, marked: bool) {
    && HasStatus(s, 0, Queued) && s.created == [0] && Known(s, 0, 0).status == Queued
    && s.redis.ready == [] && s.workers == workers && s.callers == callers
    && s.now == now && s.cfg.recoveryLimit > 0 && s.cfg.markerTtl > 0
    && (if marked then LiveIn(s, 0) else 0 !in s.redis.markers)
  }

  /** The stretch leads from the one state to the other, and never popped the task. */
  ghost predicate Leads(s: Sys, acts: seq<Action>, t: Sys) { Steps(s, acts) == t && !Popped(s, acts, 0) }

  lemma LeadsOn(s: Sys, acts: seq<Action>, t: Sys, a: Action)
    requires Leads(s, acts, t) && t.redis.ready == []
    ensures Leads(s, acts + [a], Step(t, a))
  {
    assert (acts + [a])[..|acts + [a]| - 1] == acts;
  }

  function Recovering(): Choice { Choice(true, [], false, None, false, Oracle(true, map[], Null, []), "", 0) }

  /** The task is created, and its API call dies before it sent a Redis command. */
  function Begin(cfg: Config): Sys { Step(Step(Init(cfg, 1), Create(0, 0, "", 0)), CallerCrash(0)) }

  const BEGUN: seq<Action> := [Create(0, 0, "", 0), CallerCrash(0)]

  lemma TwoActions(s: Sys, a: Action, b: Action)
    ensures Steps(s, [a, b]) == Step(Step(s, a), b)
  {
    assert [a, b][..1] == [a] && [a][..0] == [];
    assert Steps(s, [a]) == Step(Steps(s, []), a);
  }

  lemma Created(cfg: Config)
    requires cfg.recoveryLimit > 0 && cfg.markerTtl > 0
    ensures Shows(Step(Init(cfg, 1), Create(0, 0, "", 0)), 0, [Idle], [Enqueuing(0, AtMarker)], false)
  {
    assert Creates(Init(cfg, 1), Create(0, 0, "", 0));
  }

  lemma CallDies(s: Sys)
    requires Shows(s, 0, [Idle], [Enqueuing(0, AtMarker)], false)
    ensures Shows(Step(s, CallerCrash(0)), 0, [Idle], [Finished], false)
  {
  }

  lemma Begins(cfg: Config)
    requires cfg.recoveryLimit > 0 && cfg.markerTtl > 0
    ensures Run(cfg, 1, BEGUN) == Begin(cfg) && Shows(Begin(cfg), 0, [Idle], [Finished], false)
  {
    TwoActions(Init(cfg, 1), Create(0, 0, "", 0), CallerCrash(0));
    Created(cfg);
    CallDies(Step(Init(cfg, 1), Create(0, 0, "", 0)));
  }

  function Later(s: Sys, k: nat): Sys { s.(now := s.now + k) }

  lemma TickStep(s: Sys, acts: seq<Action>, k: nat)
    requires Leads(s, acts, Later(s, k)) && s.redis.ready == []
    ensures Leads(s, acts + [Tick], Later(s, k + 1))
  {
    LeadsOn(s, acts, Later(s, k), Tick);
    assert Step(Later(s, k), Tick) == Later(s, k + 1);
  }

  /** Time passes. */
  lemma {:induction false} Waits(s: Sys, k: nat) returns (acts: seq<Action>)
    requires s.redis.ready == []
    ensures Leads(s, acts, Later(s, k))
  {
    acts := [];
    if k > 0 {
      acts := Waits(s, k - 1);
      TickStep(s, acts, k - 1);
      acts := acts + [Tick];
    }
  }

  /** The message is sent again, and the enqueue of that call dies after its marker. */
  lemma Dies(s: Sys, k: nat)
    requires Shows(s, k, [Idle], [Finished], false)
    ensures var s1 := Step(s, ResendOn(0, 0));
      var s2 := Step(s1, CallerStep(1));
      && Shows(s1, k, [Idle], [Finished, Enqueuing(0, AtMarker)], false)
      && Shows(s2, k, [Idle], [Finished, Enqueuing(0, AtDrop)], true)
      && Shows(Step(s2, CallerCrash(1)), k, [Idle], [Finished, Finished], true)
  {
    var s1 := Step(s, ResendOn(0, 0));
    assert s1.callers == [Finished, Enqueuing(0, AtMarker)];
    var s2 := Step(s1, CallerStep(1));
    assert s2.callers == [Finished, Enqueuing(0, AtDrop)];
    assert Step(s2, CallerCrash(1)).callers == [Finished, Finished];
  }

  lemma PassStarts(s: Sys, k: nat)
    requires Shows(s, k, [Idle], [Finished, Finished], true)
    ensures Shows(Step(s, Work(0, Recovering())), k, [Expiring([])], [Finished, Finished], true)
  {
    assert NextWorker(s, s.workers[0], Recovering()) == Expiring([]);
  }

  lemma ListedOne(t: Sys)
    requires HasStatus(t, 0, Queued)
    ensures Select(t, [0], Queued) == [0]
  {
    assert [0 as Id][..0] == [];
    assert Select(t, [], Queued) == [];
  }

  lemma ListsTask(t: Sys, k: nat)
    requires Shows(t, k, [Expiring([])], [Finished, Finished], true)
    ensures Shows(Step(t, Work(0, Recovering())), k, [Requeuing([0], AtMarker)], [Finished, Finished], true)
    ensures Select(t, t.created, Queued) == [0]
  {
    ListedOne(t);
    assert NextWorker(t, t.workers[0], Recovering()) == Requeuing([0], AtMarker);
  }

  /** The live marker refuses the task. */
  lemma SkipsTask(t: Sys, k: nat)
    requires Shows(t, k, [Requeuing([0], AtMarker)], [Finished, Finished], true)
    ensures var t1 := Step(t, Work(0, Recovering()));
      && Shows(t1, k, [Requeuing([], AtMarker)], [Finished, Finished], true)
      && Shows(Step(t1, Work(0, Recovering())), k, [Idle], [Finished, Finished], true)
  {
    assert [0][1..] == [];
  }

  lemma TwoSteps(s: Sys, a: Action)
    requires !Pops(s, a, 0) && !Pops(Step(s, a), a, 0) && !Aborts(s, a, 0) && !Aborts(Step(s, a), a, 0)
    ensures Steps(s, [a, a]) == Step(Step(s, a), a) && !Popped(s, [a, a], 0) && NoneAborts(s, [a, a], 0)
  {
    assert [a, a][..1] == [a] && [a][..0] == [];
    assert Steps(s, [a]) == Step(Steps(s, []), a);
    assert !Popped(s, [a], 0) && NoneAborts(s, [a], 0);
  }

  /** A full pass meets no failure and leaves the task where it was. */
  lemma PassMisses(t: Sys, k: nat)
    requires Shows(t, k, [Expiring([])], [Finished, Finished], true)
    ensures var t' := Step(t, Work(0, Recovering()));
      var pass := [Work(0, Recovering()), Work(0, Recovering())];
      && Undisturbed(pass, 0) && NoneAborts(t', pass, 0) && !Popped(t', pass, 0)
      && Shows(Steps(t', pass), k, [Idle], [Finished, Finished], true)
  {
    ListsTask(t, k);
    SkipsTask(Step(t, Work(0, Recovering())), k);
    TwoSteps(Step(t, Work(0, Recovering())), Work(0, Recovering()));
  }

  /** After k ticks the message is sent again, its enqueue dies, and a pass begins. */
  lemma PassBegun(cfg: Config, k: nat) returns (wait: seq<Action>)
    requires cfg.recoveryLimit > 0 && cfg.markerTtl > 0
    ensures var t := Steps(Begin(cfg), wait);
      Shows(t, k, [Expiring([])], [Finished, Finished], true) && t.cfg == cfg && !Popped(Begin(cfg), wait, 0)
  {
    Begins(cfg);
    var s := Begin(cfg);
    var s0 := Later(s, k);
    var s1 := Step(s0, ResendOn(0, 0));
    var s2 := Step(s1, CallerStep(1));
    var s3 := Step(s2, CallerCrash(1));
    Dies(s0, k);
    PassStarts(s3, k);
    wait := Waits(s, k);
    LeadsOn(s, wait, s0, ResendOn(0, 0));
    wait := wait + [ResendOn(0, 0)];
    LeadsOn(s, wait, s1, CallerStep(1));
    wait := wait + [CallerStep(1)];
    LeadsOn(s, wait, s2, CallerCrash(1));
    wait := wait + [CallerCrash(1)];
    LeadsOn(s, wait, s3, Work(0, Recovering()));
    wait := wait + [Work(0, Recovering())];
  }

  lemma NotSafe(s: Sys, k: nat)
    requires Shows(s, k, [Idle], [Finished, Finished], true)
    ensures !Safe(s, 0)
  {
  }

  /** All that NoQueuedTaskLost asks, but for an enqueue that fails during the wait; and the
      task, queued all along, was neither popped, nor is it ready or on its way. */
  ghost predicate Missed(cfg: Config, k: nat, wait: seq<Action>, pass: seq<Action>) {
    var s := Run(cfg, 1, BEGUN);
    var t := Steps(s, wait);
    var t' := Step(t, Work(0, Recovering()));
    && HasStatus(s, 0, Queued) && t.now >= s.now + k && AtWork(t, 0, Expiring([])) && HasStatus(t, 0, Queued)
    && |Select(t, t.created, Queued)| <= cfg.recoveryLimit
    && Undisturbed(pass, 0) && NoneAborts(t', pass, 0) && AtWork(Steps(t', pass), 0, Idle)
    && !Popped(s, wait, 0) && !Popped(t', pass, 0) && !Safe(Steps(t', pass), 0)
  }

  /** However long ago the task became queued: some run of one worker lists it in a pass that
      meets no failure and still leaves it out, because an enqueue died after its marker. */
  lemma AbortedEnqueueMissed(cfg: Config, k: nat)
    requires cfg.recoveryLimit > 0 && cfg.markerTtl > 0
    ensures exists wait, pass :: Missed(cfg, k, wait, pass)
  {
    var wait := PassBegun(cfg, k);
    MissedAfter(cfg, k, wait);
  }

  lemma MissedAfter(cfg: Config, k: nat, wait: seq<Action>)
    requires cfg.recoveryLimit > 0 && cfg.markerTtl > 0 && !Popped(Begin(cfg), wait, 0)
    requires Steps(Begin(cfg), wait).cfg == cfg
    requires Shows(Steps(Begin(cfg), wait), k, [Expiring([])], [Finished, Finished], true)
    ensures Missed(cfg, k, wait, [Work(0, Recovering()), Work(0, Recovering())])
  {
    var t := Steps(Begin(cfg), wait);
    Begins(cfg);
    ListsTask(t, k);
    PassMisses(t, k);
    NotSafe(Steps(Step(t, Work(0, Recovering())), [Work(0, Recovering()), Work(0, Recovering())]), k);
  }
}
