/** With two workers the agreement of log and row fails: a recovery pass that listed a
    waiting task cancels it after it was answered, claimed and started elsewhere. */
module StaleExpiryTrace {
  import opened Basics
  import opened TaskRecord
  import opened TaskQueue
  import opened Graph
  import opened Protocol
  import opened Lifecycle
  import opened Scenes

  lemma ListedWaiting(s: Sys)
    requires HasStatus(s, 0, WaitingInput)
    ensures Select(s, [0], WaitingInput) == [0]
  {
    assert [0 as Id][..0] == [];
    assert Select(s, [], WaitingInput) == [];
  }

  lemma Recovers(s: Sys, c: Choice)
    requires c.recover && c.expired == [0] && HasStatus(s, 0, WaitingInput) && s.cfg.recoveryLimit > 0
    ensures NextWorker(s, Idle, c) == Expiring([0])
  {
    ListedWaiting(s);
  }

  lemma RecoverHop(cfg: Config, scene: Scene, c: Choice)
    requires |scene.workers| == 2 && scene.workers[0] == Idle && c.recover && c.expired == [0]
    requires scene.status == WaitingInput && !scene.calm
    ensures Moves(cfg, scene, Work(0, c), At(scene, 0, Expiring([0])))
  {
    var next := At(scene, 0, Expiring([0]));
    forall s: Sys | s.cfg == cfg && Shows(s, scene) ensures WorkShows(s, scene, 0, c, next) { Recovers(s, c); }
    WorkHop(cfg, scene, 0, c, next);
  }

  lemma ExpireHop(cfg: Config, scene: Scene, c: Choice)
    requires |scene.workers| == 2 && scene.workers[0] == Expiring([0]) && scene.status == Running && !c.recover
    ensures Moves(cfg, scene, Work(0, c), At(scene, 0, Expiring([])).(status := Cancelled))
  {
    var next := At(scene, 0, Expiring([])).(status := Cancelled);
    assert [0 as Id][1..] == [];
    forall s: Sys | s.cfg == cfg && Shows(s, scene) ensures WorkShows(s, scene, 0, c, next) {
    }
    WorkHop(cfg, scene, 0, c, next);
  }

  // ---- the trace ----

  /** Worker 0 lists the task as expired; then the user answers and worker 1 starts on it. */
  lemma Overtaken(cfg: Config, c: Choice)
    requires cfg.recoveryLimit > 0 && c == Plain(c.text)
    ensures CanShow(cfg, Scene(Running, [Expiring([0]), Executing(0, PreCheck)], [], true, [Finished, Finished], false))
  {
    var recover := c.(recover := true, expired := [0]);
    var s0 := Scene(WaitingInput, [Idle, Idle], [], false, [Finished], false);
    var s1 := At(s0, 0, Expiring([0]));
    assert CanShow(cfg, s1) by {
      Waits(cfg, 2, c, false);
      assert Idles(2) == [Idle, Idle];
      RecoverHop(cfg, s0, recover);
      Hop(cfg, s0, Work(0, recover), s1);
    }
    var s2 := s1.(status := Queued, ready := [0], marked := true, callers := [Finished, Finished]);
    assert CanShow(cfg, s2) by { Answered(cfg, s1); assert [0] + s1.ready == [0]; }
    Claimed(cfg, s2, 1, c);
    assert At(s2, 1, Executing(0, PreCheck)).(ready := [], status := Running)
        == Scene(Running, [Expiring([0]), Executing(0, PreCheck)], [], true, [Finished, Finished], false);
  }

  /** Worker 1 passes its checks and worker 0 then cancels the task under it. */
  lemma CancelledUnderExecutor(cfg: Config, c: Choice)
    requires cfg.recoveryLimit > 0 && c == Plain(c.text)
    ensures CanShow(cfg,
                    Scene(Cancelled, [Expiring([]), Executing(0, Start(LoadContext, START))],
                          [], true, [Finished, Finished], false))
  {
    var s5 := Scene(Running, [Expiring([0]), Executing(0, PreCheck)], [], true, [Finished, Finished], false);
    var s6 := At(s5, 1, Executing(0, Entry(LoadContext, START)));
    var s7 := At(s6, 1, Executing(0, Start(LoadContext, START)));
    var s8 := At(s7, 0, Expiring([])).(status := Cancelled);
    assert CanShow(cfg, s5) by { Overtaken(cfg, c); }
    assert CanShow(cfg, s6) by { Executed(cfg, s5, 1, PreCheck, c, Entry(LoadContext, START)); }
    assert CanShow(cfg, s7) by { Executed(cfg, s6, 1, Entry(LoadContext, START), c, Start(LoadContext, START)); }
    assert CanShow(cfg, s8) by { ExpireHop(cfg, s7, c); Hop(cfg, s7, Work(0, c), s8); }
    assert s8 ==
           Scene(Cancelled, [Expiring([]), Executing(0, Start(LoadContext, START))],
                 [], true, [Finished, Finished], false);
  }

  /** Some run of two workers ends with a task whose log says running and whose row says
      cancelled. */
  lemma TwoWorkersDisagree(cfg: Config)
    requires cfg.recoveryLimit > 0
    ensures exists acts :: LogRunsRowIs(Run(cfg, 2, acts), 0, Cancelled)
  {
    var c := Plain("month");
    var scene := Scene(Cancelled, [Expiring([]), Executing(0, Start(LoadContext, START))],
                       [], true, [Finished, Finished], false);
    CancelledUnderExecutor(cfg, c);
    var acts :| ShownBy(cfg, acts, scene);
    StartedDisagrees(Run(cfg, 2, acts), 1, Cancelled, c);
    RunSnoc(cfg, 2, acts, Work(1, c));
    assert LogRunsRowIs(Run(cfg, 2, acts + [Work(1, c)]), 0, Cancelled);
  }
}
