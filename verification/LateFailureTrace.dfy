/** With two workers a task can get a second executor without any recovery pass: the commit
    of a clarification question raises although it took effect, the user answers, another
    worker starts on the task, and the first one then records its error as a failure. */
module LateFailureTrace {
  import opened Basics
  import opened TaskRecord
  import opened TaskQueue
  import opened Graph
  import opened Protocol
  import opened Lifecycle
  import opened Cancellation
  import opened Scenes

  /** The question is committed, but the commit raises. */
  lemma LostReplyHop(cfg: Config, scene: Scene, c: Choice, text: string)
    requires |scene.workers| == 2 && scene.workers[0] == Executing(0, Commit(Question(text))) && scene.status == Running
    ensures Moves(cfg, scene, Fault(0, c, true),
                  At(scene, 0, Executing(0, Commit(UNEXPECTED))).(status := WaitingInput))
  {
    var next := At(scene, 0, Executing(0, Commit(UNEXPECTED))).(status := WaitingInput);
    forall s: Sys | s.cfg == cfg && Shows(s, scene) ensures Shows(Step(s, Fault(0, c, true)), next) {
      QuestionCommits(s, scene, c, text, next);
      FaultStep(s, scene, 0, c, next);
    }
  }

  lemma QuestionCommits(s: Sys, scene: Scene, c: Choice, text: string, next: Scene)
    requires Shows(s, scene) && scene.status == Running
    requires next == scene.(workers := next.workers, status := WaitingInput)
    requires |scene.workers| == 2 && scene.workers[0] == Executing(0, Commit(Question(text)))
    ensures FaultWorker(s.workers[0]) == Executing(0, Commit(UNEXPECTED))
    ensures RowShows(RowThen(s, 0, c), next) && RedisShows(RedisThen(s, 0, c), s.now, next)
  {
    assert WorkerOp(s, s.workers[0], c) == Some((0, EndingOp(Question(text))));
  }

  lemma FailHop(cfg: Config, scene: Scene, c: Choice)
    requires |scene.workers| == 2 && scene.workers[0] == Executing(0, Commit(UNEXPECTED)) && scene.status == Running
    requires !c.recover
    ensures Moves(cfg, scene, Work(0, c), At(scene, 0, Acking(0, false)).(status := Failed))
  {
    var next := At(scene, 0, Acking(0, false)).(status := Failed);
    forall s: Sys | s.cfg == cfg && Shows(s, scene) ensures WorkShows(s, scene, 0, c, next) {
      assert WorkerOp(s, s.workers[0], c) == Some((0, EndingOp(UNEXPECTED)));
    }
    WorkHop(cfg, scene, 0, c, next);
  }

  lemma TickShows(s: Sys, scene: Scene)
    requires Shows(s, scene)
    ensures Shows(Step(s, Tick), scene) && Step(s, Tick).redis == s.redis && Step(s, Tick).now == s.now + 1
  {
  }

  /** Waiting lets the marker lapse. */
  lemma {:induction false} Lapses(cfg: Config, acts: seq<Action>, scene: Scene, k: nat)
    requires ShownBy(cfg, acts, scene) && |scene.workers| == 2
    requires var s := Run(cfg, 2, acts); 0 in s.redis.markers ==> s.redis.markers[0] <= s.now + k
    ensures CanShow(cfg, scene.(marked := false))
    decreases k
  {
    if k == 0 {
      assert ShownBy(cfg, acts, scene.(marked := false));
    } else {
      var more := acts + [Tick];
      assert more[..|acts|] == acts;
      TickShows(Run(cfg, 2, acts), scene);
      assert ShownBy(cfg, more, scene);
      Lapses(cfg, more, scene, k - 1);
    }
  }

  lemma Lapsed(cfg: Config, scene: Scene)
    requires CanShow(cfg, scene) && |scene.workers| == 2
    ensures CanShow(cfg, scene.(marked := false))
  {
    var acts :| ShownBy(cfg, acts, scene);
    var s := Run(cfg, 2, acts);
    Lapses(cfg, acts, scene, if 0 in s.redis.markers then s.redis.markers[0] else 0);
  }

  /** The question waits for its answer while worker 0 is still to record the error. */
  lemma LostReply(cfg: Config, c: Choice)
    requires cfg.recoveryLimit > 0 && c == Plain(c.text)
    ensures CanShow(cfg, Scene(WaitingInput, [Executing(0, Commit(UNEXPECTED)), Idle], [], false, [Finished], true))
  {
    var s0 := Scene(Running, [Executing(0, Commit(Question(c.text))), Idle], [], true, [Finished], true);
    var s1 := At(s0, 0, Executing(0, Commit(UNEXPECTED))).(status := WaitingInput);
    assert CanShow(cfg, s0) by {
      Asked(cfg, 2, c, true);
      assert s0 == At(Scene(Running, Idles(2), [], true, [Finished], true), 0, Executing(0, Commit(Question(c.text))));
    }
    assert CanShow(cfg, s1) by { LostReplyHop(cfg, s0, c, c.text); Hop(cfg, s0, Fault(0, c, true), s1); }
    Lapsed(cfg, s1);
    assert s1.(marked := false) ==
             Scene(WaitingInput, [Executing(0, Commit(UNEXPECTED)), Idle], [], false, [Finished], true);
  }

  function Twice(phase: Phase): Scene {
    Scene(Running, [Executing(0, Commit(UNEXPECTED)), Executing(0, phase)], [], true, [Finished, Finished], true)
  }

  /** The user answers and worker 1 claims the task. */
  lemma ClaimedAgain(cfg: Config, c: Choice)
    requires cfg.recoveryLimit > 0 && c == Plain(c.text)
    ensures CanShow(cfg, Twice(PreCheck))
  {
    var s0 := Scene(WaitingInput, [Executing(0, Commit(UNEXPECTED)), Idle], [], false, [Finished], true);
    var s1 := s0.(status := Queued, ready := [0], marked := true, callers := [Finished, Finished]);
    assert CanShow(cfg, s1) by { LostReply(cfg, c); Answered(cfg, s0); assert [0] + s0.ready == [0]; }
    Claimed(cfg, s1, 1, c);
    assert At(s1, 1, Executing(0, PreCheck)).(ready := [], status := Running) == Twice(PreCheck);
  }

  /** Worker 1 passes its checks and worker 0 then fails the task under it. */
  lemma FailedUnderExecutor(cfg: Config, c: Choice)
    requires cfg.recoveryLimit > 0 && c == Plain(c.text)
    ensures CanShow(cfg, At(Twice(Start(LoadContext, START)), 0, Acking(0, false)).(status := Failed))
  {
    var s1, s2 := Twice(Entry(LoadContext, START)), Twice(Start(LoadContext, START));
    assert CanShow(cfg, s1) by {
      ClaimedAgain(cfg, c);
      Executed(cfg, Twice(PreCheck), 1, PreCheck, c, Entry(LoadContext, START));
      assert s1 == At(Twice(PreCheck), 1, Executing(0, Entry(LoadContext, START)));
    }
    assert CanShow(cfg, s2) by {
      Executed(cfg, s1, 1, Entry(LoadContext, START), c, Start(LoadContext, START));
      assert s2 == At(s1, 1, Executing(0, Start(LoadContext, START)));
    }
    FailHop(cfg, s2, c);
    Hop(cfg, s2, Work(0, c), At(s2, 0, Acking(0, false)).(status := Failed));
  }

  // ---- a run without recovery passes expires nothing ----

  predicate NoneExpiring(s: Sys) {
    forall w :: 0 <= w < |s.workers| ==> !s.workers[w].Expiring? && !s.workers[w].CancelSeen?
  }

  predicate Unflagged(t: Task) { t.status == Queued ==> !t.cancelRequested }

  predicate NoneFlagged(s: Sys) { forall id :: id in s.tasks ==> Unflagged(s.tasks[id]) }

  lemma CalmRow(op: Op, t: Task, now: nat)
    requires Unflagged(t) && !HeldBy(op)
    ensures Unflagged(Apply(op, t, now))
  {
  }

  lemma CalmRows(s: Sys, a: Action)
    requires NoneFlagged(s) && Calm(a)
    ensures NoneFlagged(Step(s, a))
  {
    forall id | id in Step(s, a).tasks ensures Unflagged(Step(s, a).tasks[id]) {
      if id in s.tasks {
        assert Unflagged(s.tasks[id]);
        RowAfter(s, a, id);
        if Commits(s, a, id) { CalmRow(DbOp(s, a).value.1, s.tasks[id], s.now); }
      } else {
        RowCreated(s, a, id);
      }
    }
  }

  lemma CalmStep(s: Sys, a: Action, id: Id)
    requires NoneExpiring(s) && NoneFlagged(s) && Calm(a)
    ensures NoneExpiring(Step(s, a)) && !Occurs(Expiry, s, a, id)
  {
  }

  lemma {:induction false} CalmRun(cfg: Config, acts: seq<Action>)
    requires forall a :: a in acts ==> Calm(a)
    ensures NoneExpiring(Run(cfg, 2, acts)) && NoneFlagged(Run(cfg, 2, acts))
  {
    if acts != [] {
      var init, a := acts[..|acts| - 1], acts[|acts| - 1];
      assert acts == init + [a] && Calm(a);
      CalmRun(cfg, init);
      CalmRows(Run(cfg, 2, init), a);
      CalmStep(Run(cfg, 2, init), a, 0);
    }
  }

  lemma {:induction false} CalmExpiresNothing(cfg: Config, acts: seq<Action>, id: Id)
    requires forall a :: a in acts ==> Calm(a)
    ensures Never({Expiry}, cfg, 2, acts, id)
  {
    if acts != [] {
      var init, a := acts[..|acts| - 1], acts[|acts| - 1];
      assert acts == init + [a] && Calm(a);
      CalmExpiresNothing(cfg, init, id);
      CalmRun(cfg, init);
      CalmStep(Run(cfg, 2, init), a, id);
    }
  }

  /** A scene whose log and row part at the next step of worker 1. */
  function FailedScene(): Scene { At(Twice(Start(LoadContext, START)), 0, Acking(0, false)).(status := Failed) }

  lemma FailedWhileExecuted(s: Sys)
    requires Shows(s, FailedScene())
    ensures HasStatus(s, 0, Failed) && Runs(s, 1, 0) && !OneExecutor(s, 0)
    ensures |s.workers| > 1 && s.workers[1] == Executing(0, Start(LoadContext, START))
  {
    assert s.workers[1] == Executing(0, Start(LoadContext, START));
    assert Runs(s, 1, 0);
  }

  /** Without any recovery pass, some run of two workers ends with a failed task that worker 1
      still executes. */
  lemma TwoWorkersExecute(cfg: Config)
    requires cfg.recoveryLimit > 0
    ensures exists acts :: Never({Expiry}, cfg, 2, acts, 0) && !OneExecutor(Run(cfg, 2, acts), 0)
              && HasStatus(Run(cfg, 2, acts), 0, Failed) && Runs(Run(cfg, 2, acts), 1, 0)
  {
    FailedUnderExecutor(cfg, Plain("month"));
    var acts :| ShownBy(cfg, acts, FailedScene());
    FailedWhileExecuted(Run(cfg, 2, acts));
    CalmExpiresNothing(cfg, acts, 0);
  }

  /** Without any recovery pass, some run of two workers ends with a log that says running
      and a row that says failed. */
  lemma TwoWorkersDisagreeCalmly(cfg: Config)
    requires cfg.recoveryLimit > 0
    ensures exists acts :: Never({Expiry}, cfg, 2, acts, 0) && LogRunsRowIs(Run(cfg, 2, acts), 0, Failed)
  {
    FailedUnderExecutor(cfg, Plain("month"));
    var acts :| ShownBy(cfg, acts, FailedScene());
    FailedReports(cfg, acts, Plain("month"));
  }

  lemma FailedReports(cfg: Config, acts: seq<Action>, c: Choice)
    requires ShownBy(cfg, acts, FailedScene()) && !c.recover
    ensures var more := acts + [Work(1, c)];
      Never({Expiry}, cfg, 2, more, 0) && LogRunsRowIs(Run(cfg, 2, more), 0, Failed)
  {
    RunSnoc(cfg, 2, acts, Work(1, c));
    FailedWhileExecuted(Run(cfg, 2, acts));
    StartedDisagrees(Run(cfg, 2, acts), 1, Failed, c);
    CalmExpiresNothing(cfg, acts + [Work(1, c)], 0);
  }

  // ---- a cancel that is forgotten ----

  /** The failure, a retry that clears the request, and the check of the other executor. */
  lemma CheckPassesAfterRetry(s: Sys, c: Choice)
    requires Shows(s, Twice(PreCheck)) && c == Plain(c.text)
    ensures var t := Step(s, CancelTask(0));
      var t1 := Step(t, Work(0, c));
      var t2 := Step(t1, RetryTask(0));
      && Executes(t, 1, 0) && CancelIn(t, 0) && t1.workers[1] == t2.workers[1] == t.workers[1]
      && Does(CheckPassed, t2, Work(1, c), 1)
  {
    var t := Step(s, CancelTask(0));
    var t1 := Step(t, Work(0, c));
    RowAfter(s, CancelTask(0), 0);
    RowAfter(t, Work(0, c), 0);
    RowAfter(t1, RetryTask(0), 0);
    assert HasStatus(t1, 0, Failed);
  }

  lemma ThreeSteps(s: Sys, a: Action, b: Action, c: Action)
    ensures var more := [a, b, c];
      && more[..0] == [] && Steps(s, more[..0]) == s && Steps(s, more[..1]) == Step(s, a)
      && Steps(s, more[..2]) == Step(Step(s, a), b)
  {
    var more := [a, b, c];
    assert more[..1] == [a] && [a][..0] == [];
    assert more[..2] == [a, b] && [a, b][..1] == [a];
    assert Steps(s, [a]) == Step(Steps(s, []), a);
  }

  lemma ThirdCounts(s: Sys, a: Action, b: Action, c: Action, w: nat)
    requires Does(CheckPassed, Step(Step(s, a), b), c, w)
    ensures DeedsOf(s, [a, b, c], w).checks > 0
  {
    ThreeSteps(s, a, b, c);
    assert [a, b, c][..2] == [a, b];
  }

  lemma Within(s: Sys, a: Action, b: Action, c: Action, w: nat, worker: Worker)
    requires worker.Executing? && AtWorker(s, w, worker) && AtWorker(Step(s, a), w, worker)
    requires AtWorker(Step(Step(s, a), b), w, worker)
    requires forall x :: x in [a, b, c] ==> x != Crash(w) && !(x.Fault? && x.w == w)
    ensures WithinExecution(s, [a, b, c], w)
  {
    var more := [a, b, c];
    ThreeSteps(s, a, b, c);
    forall i | 0 <= i < |more|
      ensures w < |Steps(s, more[..i]).workers| && Steps(s, more[..i]).workers[w].Executing?
      ensures more[i] != Crash(w) && !(more[i].Fault? && more[i].w == w)
    {
      assert more[i] in [a, b, c];
      assert i == 0 || i == 1 || i == 2;
    }
  }

  predicate AtWorker(s: Sys, w: nat, worker: Worker) { w < |s.workers| && s.workers[w] == worker }

  /** In an execution with a cancel request a later check passes. */
  ghost predicate Forgets(s: Sys, more: seq<Action>) {
    && Executes(s, 1, 0) && CancelIn(s, 0)
    && WithinExecution(s, more, 1) && DeedsOf(s, more, 1).checks > 0
  }

  lemma ForgetsAfter(s: Sys, c: Choice)
    requires Shows(s, Twice(PreCheck)) && c == Plain(c.text)
    ensures Forgets(Step(s, CancelTask(0)), [Work(0, c), RetryTask(0), Work(1, c)])
  {
    var t := Step(s, CancelTask(0));
    CheckPassesAfterRetry(s, c);
    Within(t, Work(0, c), RetryTask(0), Work(1, c), 1, Executing(0, PreCheck));
    ThirdCounts(t, Work(0, c), RetryTask(0), Work(1, c), 1);
  }

  lemma ForgetsRun(cfg: Config, start: seq<Action>, c: Choice)
    requires ShownBy(cfg, start, Twice(PreCheck)) && c == Plain(c.text)
    ensures exists acts, more :: Forgets(Run(cfg, 2, acts), more)
  {
    RunSnoc(cfg, 2, start, CancelTask(0));
    ForgetsAfter(Run(cfg, 2, start), c);
    SomeForgets(cfg, start + [CancelTask(0)], [Work(0, c), RetryTask(0), Work(1, c)]);
  }

  lemma SomeForgets(cfg: Config, acts: seq<Action>, more: seq<Action>)
    requires Forgets(Run(cfg, 2, acts), more)
    ensures exists acts, more :: Forgets(Run(cfg, 2, acts), more)
  {
  }

  /** A late failure can forget a cancel: after it and a retry, a check of the cancelled
      execution passes. */
  lemma CancelForgotten(cfg: Config)
    requires cfg.recoveryLimit > 0
    ensures exists acts, more :: Forgets(Run(cfg, 2, acts), more)
  {
    var c := Plain("month");
    ClaimedAgain(cfg, c);
    var start :| ShownBy(cfg, start, Twice(PreCheck));
    ForgetsRun(cfg, start, c);
  }
}
