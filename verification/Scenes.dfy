/** Runs of a few workers built action by action: what is followed of a state, and the steps
    the traces have in common. */
module Scenes {
  import opened Basics
  import opened Schema
  import opened TaskRecord
  import opened TaskQueue
  import opened Graph
  import opened Protocol
  import opened Lifecycle
  import Numbering

  /** What a trace follows of a state: the workers, task 0, the API calls made so far, the
      status connection 0 holds of the task if it holds one, and whether the task has a
      complete result; and whether the trace does with calm actions. */
  datatype Scene = Scene(
    status: TaskStatus, workers: seq<Worker>, ready: seq<Id>, marked: bool, callers: seq<Caller>, calm: bool,
    held: Option<TaskStatus> := None, reported: bool := false)

  predicate RowShows(t: Task, scene: Scene) {
    && t.status == scene.status && !t.cancelRequested && t.conversation == 0
    && (if scene.reported then HasCompleteResult(t) else t.results == [])
  }

  predicate HeldShows(held: map<(nat, Id), Task>, scene: Scene) {
    if scene.held.Some? then (0, 0) in held && held[(0, 0)].status == scene.held.value else (0, 0) !in held
  }

  predicate RedisShows(redis: Redis, now: nat, scene: Scene) {
    redis.ready == scene.ready && 0 !in redis.cancels && (!scene.marked ==> !Live(redis.markers, 0, now))
  }

  ghost predicate Shows(s: Sys, scene: Scene) {
    && 0 in s.tasks && RowShows(s.tasks[0], scene)
    && s.workers == scene.workers && s.callers == scene.callers
    && HeldShows(s.held, scene) && RedisShows(s.redis, s.now, scene)
    && s.cfg.recoveryLimit > 0
    && Numbering.Contiguous(s.messages)
  }

  /** The action starts no recovery pass, and is no connection's command. */
  predicate Calm(a: Action) { (a.Work? ==> !a.choice.recover) && !a.CancelOn? && !a.ClarifyOn? }

  ghost predicate ShownBy(cfg: Config, acts: seq<Action>, scene: Scene) {
    Shows(Run(cfg, |scene.workers|, acts), scene) && (scene.calm ==> forall a :: a in acts ==> Calm(a))
  }

  ghost predicate CanShow(cfg: Config, scene: Scene) { exists acts :: ShownBy(cfg, acts, scene) }

  ghost predicate Moves(cfg: Config, scene: Scene, a: Action, next: Scene) {
    && next.calm == scene.calm && (scene.calm ==> Calm(a)) && |next.workers| == |scene.workers|
    && forall s: Sys :: s.cfg == cfg && Shows(s, scene) ==> Shows(Step(s, a), next)
  }

  lemma Extended(cfg: Config, acts: seq<Action>, scene: Scene, a: Action, next: Scene)
    requires ShownBy(cfg, acts, scene) && next.calm == scene.calm && (scene.calm ==> Calm(a))
    requires |next.workers| == |scene.workers| && Shows(Step(Run(cfg, |scene.workers|, acts), a), next)
    ensures CanShow(cfg, next)
  {
    RunSnoc(cfg, |scene.workers|, acts, a);
    assert ShownBy(cfg, acts + [a], next);
  }

  lemma Hop(cfg: Config, scene: Scene, a: Action, next: Scene)
    requires CanShow(cfg, scene) && Moves(cfg, scene, a, next)
    ensures CanShow(cfg, next)
  {
    var acts :| ShownBy(cfg, acts, scene);
    CfgKept(Init(cfg, |scene.workers|), acts);
    Extended(cfg, acts, scene, a, next);
  }

  function Plain(text: string): Choice {
    Choice(false, [], false, None, false, Oracle(true, map[], Null, []), text, 0)
  }

  function At(scene: Scene, w: nat, worker: Worker): Scene
    requires w < |scene.workers|
  {
    scene.(workers := scene.workers[w := worker])
  }

  // ---- one hop each ----

  /** The row of task 0 after an undisturbed step of worker w. */
  function RowThen(s: Sys, w: nat, c: Choice): Task
    requires 0 in s.tasks && w < |s.workers|
  {
    match WorkerOp(s, s.workers[w], c)
    case Some((id, op)) => if id == 0 then Apply(op, s.tasks[0], s.now) else s.tasks[0]
    case None => s.tasks[0]
  }

  function RedisThen(s: Sys, w: nat, c: Choice): Redis
    requires w < |s.workers|
  {
    match WorkerCommand(s.workers[w], c)
    case Some(cmd) => Do(cmd, s.redis, s.now, s.cfg.markerTtl)
    case None => s.redis
  }

  /** What a worker's step shows, part by part. */
  predicate WorkShows(s: Sys, scene: Scene, w: nat, c: Choice, next: Scene)
    requires 0 in s.tasks && s.workers == scene.workers && w < |scene.workers|
  {
    && next.workers == scene.workers[w := NextWorker(s, s.workers[w], c)]
    && next.callers == scene.callers && next.held == scene.held
    && RowShows(RowThen(s, w, c), next) && RedisShows(RedisThen(s, w, c), s.now, next)
  }

  lemma WorkStep(s: Sys, scene: Scene, w: nat, c: Choice, next: Scene)
    requires Shows(s, scene) && w < |scene.workers| && WorkShows(s, scene, w, c, next)
    ensures Shows(Step(s, Work(w, c)), next)
  {
    RowAfter(s, Work(w, c), 0);
    NumbersStep(s, Work(w, c));
  }

  /** The same, when the step's command or transaction took effect and then raised. */
  lemma FaultStep(s: Sys, scene: Scene, w: nat, c: Choice, next: Scene)
    requires Shows(s, scene) && w < |scene.workers|
    requires next.workers == scene.workers[w := FaultWorker(s.workers[w])]
    requires next.callers == scene.callers && next.held == scene.held
    requires RowShows(RowThen(s, w, c), next) && RedisShows(RedisThen(s, w, c), s.now, next)
    ensures Shows(Step(s, Fault(w, c, true)), next)
  {
    RowAfter(s, Fault(w, c, true), 0);
    NumbersStep(s, Fault(w, c, true));
  }

  lemma WorkHop(cfg: Config, scene: Scene, w: nat, c: Choice, next: Scene)
    requires w < |scene.workers| && |next.workers| == |scene.workers|
    requires next.calm == scene.calm && (scene.calm ==> !c.recover)
    requires forall s: Sys :: s.cfg == cfg && Shows(s, scene) ==> WorkShows(s, scene, w, c, next)
    ensures Moves(cfg, scene, Work(w, c), next)
  {
    forall s: Sys | s.cfg == cfg && Shows(s, scene) ensures Shows(Step(s, Work(w, c)), next) {
      WorkStep(s, scene, w, c, next);
    }
  }

  lemma CallerStepShows(s: Sys, scene: Scene, i: nat, next: Scene)
    requires Shows(s, scene) && i < |scene.callers| && CallerCommand(s.callers[i]).Some?
    requires next == scene.(callers := scene.callers[i := NextCaller(s, s.callers[i])],
                            ready := next.ready, marked := next.marked)
    requires RedisShows(Do(CallerCommand(s.callers[i]).value, s.redis, s.now, s.cfg.markerTtl), s.now, next)
    ensures Shows(Step(s, CallerStep(i)), next)
  {
  }

  /** What a call's next command does to the scene. */
  predicate CallerLeads(scene: Scene, i: nat, next: Scene)
    requires i < |scene.callers|
  {
    match scene.callers[i]
    case Clearing(id) => id == 0 && next == scene.(callers := scene.callers[i := Enqueuing(0, AtMarker)])
    case Enqueuing(id, at) =>
      && id == 0
      && (match at
          case AtMarker =>
            !scene.marked && next == scene.(marked := true, callers := scene.callers[i := Enqueuing(0, AtDrop)])
          case AtDrop => next == scene.(callers := scene.callers[i := Enqueuing(0, AtPush)])
          case AtPush => next == scene.(ready := [0] + scene.ready, callers := scene.callers[i := Finished])
          case AtUndo => false)
    case _ => false
  }

  lemma CallerHop(cfg: Config, scene: Scene, i: nat, next: Scene)
    requires i < |scene.callers| && CallerLeads(scene, i, next)
    ensures Moves(cfg, scene, CallerStep(i), next)
  {
    forall s: Sys | s.cfg == cfg && Shows(s, scene) ensures Shows(Step(s, CallerStep(i)), next) {
      CallerStepShows(s, scene, i, next);
    }
  }

  /** The API call's enqueue runs to its end. */
  lemma Enqueued(cfg: Config, scene: Scene, i: nat)
    requires CanShow(cfg, scene) && i < |scene.callers| && scene.callers[i] == Enqueuing(0, AtMarker) && !scene.marked
    ensures CanShow(cfg, scene.(ready := [0] + scene.ready, marked := true, callers := scene.callers[i := Finished]))
  {
    var s1 := scene.(marked := true, callers := scene.callers[i := Enqueuing(0, AtDrop)]);
    var s2 := s1.(callers := s1.callers[i := Enqueuing(0, AtPush)]);
    var s3 := s2.(ready := [0] + s2.ready, callers := s2.callers[i := Finished]);
    assert CanShow(cfg, s1) by { CallerHop(cfg, scene, i, s1); Hop(cfg, scene, CallerStep(i), s1); }
    assert CanShow(cfg, s2) by { CallerHop(cfg, s1, i, s2); Hop(cfg, s1, CallerStep(i), s2); }
    assert CanShow(cfg, s3) by { CallerHop(cfg, s2, i, s3); Hop(cfg, s2, CallerStep(i), s3); }
    assert s3 == scene.(ready := [0] + scene.ready, marked := true, callers := scene.callers[i := Finished]);
  }

  lemma ReserveHop(cfg: Config, scene: Scene, w: nat, c: Choice)
    requires w < |scene.workers| && scene.workers[w] == Idle && scene.ready == [0] && !c.recover
    ensures Moves(cfg, scene, Work(w, c), At(scene, w, Looking(0)).(ready := []))
  {
    var next := At(scene, w, Looking(0)).(ready := []);
    forall s: Sys | s.cfg == cfg && Shows(s, scene) ensures WorkShows(s, scene, w, c, next) {
    }
    WorkHop(cfg, scene, w, c, next);
  }

  lemma LookHop(cfg: Config, scene: Scene, w: nat, c: Choice)
    requires w < |scene.workers| && scene.workers[w] == Looking(0) && scene.status == Queued && !c.recover
    ensures Moves(cfg, scene, Work(w, c), At(scene, w, Claiming(0)))
  {
    var next := At(scene, w, Claiming(0));
    forall s: Sys | s.cfg == cfg && Shows(s, scene) ensures WorkShows(s, scene, w, c, next) {
    }
    WorkHop(cfg, scene, w, c, next);
  }

  lemma ClaimHop(cfg: Config, scene: Scene, w: nat, c: Choice)
    requires w < |scene.workers| && scene.workers[w] == Claiming(0) && scene.status == Queued && !c.recover
    ensures Moves(cfg, scene, Work(w, c), At(scene, w, Executing(0, PreCheck)).(status := Running))
  {
    var next := At(scene, w, Executing(0, PreCheck)).(status := Running);
    forall s: Sys | s.cfg == cfg && Shows(s, scene) ensures WorkShows(s, scene, w, c, next) {
    }
    WorkHop(cfg, scene, w, c, next);
  }

  /** A queued task in the ready list gets an executor. */
  lemma Claimed(cfg: Config, scene: Scene, w: nat, c: Choice)
    requires CanShow(cfg, scene) && w < |scene.workers| && scene.workers[w] == Idle
             && scene.ready == [0] && !c.recover
    requires scene.status == Queued
    ensures CanShow(cfg, At(scene, w, Executing(0, PreCheck)).(ready := [], status := Running))
  {
    var s1 := At(scene, w, Looking(0)).(ready := []);
    var s2 := At(s1, w, Claiming(0));
    var s3 := At(s2, w, Executing(0, PreCheck)).(status := Running);
    assert CanShow(cfg, s1) by { ReserveHop(cfg, scene, w, c); Hop(cfg, scene, Work(w, c), s1); }
    assert CanShow(cfg, s2) by { LookHop(cfg, s1, w, c); Hop(cfg, s1, Work(w, c), s2); }
    assert CanShow(cfg, s3) by { ClaimHop(cfg, s2, w, c); Hop(cfg, s2, Work(w, c), s3); }
    assert s3 == At(scene, w, Executing(0, PreCheck)).(ready := [], status := Running);
  }

  /** Where an uncancelled executor goes, without reading the state. */
  predicate Leads(cfg: Config, p: Phase, c: Choice, next: Phase) {
    match p
    case PreCheck => next == Entry(LoadContext, START)
    case Entry(n, g) => !(n == BuildReportIR && g.retries > 0) && next == Start(n, g)
    case Start(n, g) => next == Body(n, g)
    case Body(n, g) =>
      && !c.useTool && c.raised.None? && next.Exit? && next.n == n
      && Execute(cfg.validator, n, g, c.oracle) == NodeResult.Updated(next.g)
    case Exit(n, g) => next == NodeFinished(n, g)
    case NodeFinished(n, g) =>
      if Next(n, g).Some? then next == Entry(Next(n, g).value, g)
      else if n == AskClarification then
        next == PostCheck(Finish(WaitingInput, Some("ask_clarification"), Some(c.text)))
      else next == Persisting(g)
    case PostCheck(ending) => next == Commit(ending)
    case _ => false
  }

  lemma ExecuteHop(cfg: Config, scene: Scene, w: nat, p: Phase, c: Choice, next: Phase)
    requires w < |scene.workers| && scene.workers[w] == Executing(0, p)
    requires scene.status == Running && Leads(cfg, p, c, next) && !c.recover
    ensures Moves(cfg, scene, Work(w, c), At(scene, w, Executing(0, next)))
  {
    var onward := At(scene, w, Executing(0, next));
    forall s: Sys | s.cfg == cfg && Shows(s, scene) ensures WorkShows(s, scene, w, c, onward) {
      assert NextPhase(s, 0, p, c) == next;
      if PhaseOp(s, 0, p, c).Some? { KeepsRow(s, p, c); }
    }
    WorkHop(cfg, scene, w, c, onward);
  }

  lemma KeepsRow(s: Sys, p: Phase, c: Choice)
    requires HasStatus(s, 0, Running) && !p.Commit? && !p.Persisting? && PhaseOp(s, 0, p, c).Some?
    ensures var t := Apply(PhaseOp(s, 0, p, c).value, s.tasks[0], s.now);
      t.status == Running && t.cancelRequested == s.tasks[0].cancelRequested
      && t.conversation == s.tasks[0].conversation && t.results == s.tasks[0].results && t.files == s.tasks[0].files
  {
  }

  lemma Executed(cfg: Config, scene: Scene, w: nat, p: Phase, c: Choice, next: Phase)
    requires CanShow(cfg, scene) && w < |scene.workers| && scene.workers[w] == Executing(0, p)
    requires scene.status == Running && Leads(cfg, p, c, next) && !c.recover
    ensures CanShow(cfg, At(scene, w, Executing(0, next)))
  {
    ExecuteHop(cfg, scene, w, p, c, next);
    Hop(cfg, scene, Work(w, c), At(scene, w, Executing(0, next)));
  }

  /** The executor moves on. */
  function Onward(scene: Scene, w: nat, p: Phase): Scene
    requires w < |scene.workers|
  {
    At(scene, w, Executing(0, p))
  }

  lemma OnwardAgain(scene: Scene, w: nat, p: Phase, p': Phase)
    requires w < |scene.workers|
    ensures Onward(Onward(scene, w, p), w, p') == Onward(scene, w, p')
  {
  }

  /** Two steps of the executor are one stretch. */
  lemma Onwards(cfg: Config, scene: Scene, w: nat, p: Phase, mid: Phase, c: Choice, next: Phase)
    requires w < |scene.workers| && CanShow(cfg, Onward(scene, w, p))
    requires scene.status == Running && Leads(cfg, p, c, mid) && Leads(cfg, mid, c, next) && !c.recover
    ensures CanShow(cfg, Onward(scene, w, next))
  {
    OnwardAgain(scene, w, p, mid);
    OnwardAgain(scene, w, mid, next);
    Executed(cfg, Onward(scene, w, p), w, p, c, mid);
    Executed(cfg, Onward(scene, w, mid), w, mid, c, next);
  }

  /** A whole node execution. */
  lemma NodeDone(cfg: Config, scene: Scene, w: nat, n: Node, g: GraphState, c: Choice, g': GraphState, next: Phase)
    requires w < |scene.workers| && CanShow(cfg, Onward(scene, w, Entry(n, g))) && scene.status == Running
    requires Leads(cfg, Body(n, g), c, Exit(n, g')) && Leads(cfg, NodeFinished(n, g'), c, next)
    requires !(n == BuildReportIR && g.retries > 0) && !c.recover
    ensures CanShow(cfg, Onward(scene, w, next))
  {
    Onwards(cfg, scene, w, Entry(n, g), Start(n, g), c, Body(n, g));
    OnwardAgain(scene, w, Body(n, g), Exit(n, g'));
    Executed(cfg, Onward(scene, w, Body(n, g)), w, Body(n, g), c, Exit(n, g'));
    Onwards(cfg, scene, w, Exit(n, g'), NodeFinished(n, g'), c, next);
  }

  lemma ClarifyHop(scene: Scene, seen: nat)
    requires scene.status == WaitingInput
    ensures forall s :: Shows(s, scene) && |s.messages| == seen ==>
              Shows(Step(s, Clarify(0, seen)), scene.(status := Queued, callers := scene.callers + [Clearing(0)]))
  {
    forall s | Shows(s, scene) && |s.messages| == seen
      ensures Shows(Step(s, Clarify(0, seen)), scene.(status := Queued, callers := scene.callers + [Clearing(0)]))
    {
      var ins := MessageInsert(0, seen, None);
      assert s.messages[seen..] == [];
      Numbering.CommitsIffFresh(s.messages, ins);
      NumbersStep(s, Clarify(0, seen));
    }
  }

  lemma Clarified(cfg: Config, scene: Scene)
    requires CanShow(cfg, scene) && scene.status == WaitingInput
    ensures CanShow(cfg, scene.(status := Queued, callers := scene.callers + [Clearing(0)]))
  {
    var acts :| ShownBy(cfg, acts, scene);
    var seen := |Run(cfg, |scene.workers|, acts).messages|;
    ClarifyHop(scene, seen);
    Extended(cfg, acts, scene, Clarify(0, seen), scene.(status := Queued, callers := scene.callers + [Clearing(0)]));
  }

  // ---- up to the question ----

  function Idles(n: nat): (workers: seq<Worker>)
    ensures |workers| == n && forall i :: 0 <= i < n ==> workers[i] == Idle
  {
    seq(n, _ => Idle)
  }

  function Start0(n: nat, calm: bool): Scene { Scene(Queued, Idles(n), [], false, [Enqueuing(0, AtMarker)], calm) }

  lemma CreatedShows(cfg: Config, n: nat, a: Action, calm: bool)
    requires cfg.recoveryLimit > 0 && a.Create? && a.id == 0 && a.conversation == 0 && a.seen == 0
    ensures Shows(Step(Init(cfg, n), a), Start0(n, calm))
  {
    var s0 := Init(cfg, n);
    assert Creates(s0, a);
    NumbersStep(s0, a);
    assert Step(s0, a).workers == Idles(n);
  }

  lemma FirstStep(s: Sys, a: Action)
    ensures Steps(s, [a]) == Step(s, a)
  {
  }

  lemma Created(cfg: Config, n: nat, clientMsg: string, calm: bool)
    requires cfg.recoveryLimit > 0
    ensures CanShow(cfg, Start0(n, calm))
  {
    var a := Create(0, 0, clientMsg, 0);
    CreatedShows(cfg, n, a, calm);
    FirstStep(Init(cfg, n), a);
    assert ShownBy(cfg, [a], Start0(n, calm));
  }

  /** Worker w finds that fields are missing, or that none are. */
  lemma Defines(cfg: Config, scene: Scene, w: nat, c: Choice, g: GraphState)
    requires w < |scene.workers| && CanShow(cfg, Onward(scene, w, PreCheck)) && scene.status == Running
    requires !c.recover && !c.useTool && c.raised.None? && g == START.(clarify := c.oracle.missingFields)
    ensures CanShow(cfg, Onward(scene, w, Entry(if g.clarify then AskClarification else BuildAnalysisPlan, g)))
  {
    OnwardAgain(scene, w, PreCheck, Entry(LoadContext, START));
    Executed(cfg, Onward(scene, w, PreCheck), w, PreCheck, c, Entry(LoadContext, START));
    NodeDone(cfg, scene, w, LoadContext, START, c, START, Entry(DefineProblem, START));
    NodeDone(cfg, scene, w, DefineProblem, START, c, g, Entry(Next(DefineProblem, g).value, g));
  }

  /** Worker 0 asks its clarification question. */
  lemma Asks(cfg: Config, scene: Scene, c: Choice)
    requires |scene.workers| > 0 && CanShow(cfg, Onward(scene, 0, PreCheck))
    requires scene.status == Running && c == Plain(c.text)
    ensures CanShow(cfg, Onward(scene, 0, Commit(Question(c.text))))
  {
    var asked, end := START.(clarify := true), Question(c.text);
    Defines(cfg, scene, 0, c, asked);
    NodeDone(cfg, scene, 0, AskClarification, asked, c, asked, PostCheck(end));
    OnwardAgain(scene, 0, PostCheck(end), Commit(end));
    Executed(cfg, Onward(scene, 0, PostCheck(end)), 0, PostCheck(end), c, Commit(end));
  }

  function Question(text: string): Ending { Finish(WaitingInput, Some("ask_clarification"), Some(text)) }

  /** Worker 0 ran the task up to the commit of its clarification question. */
  lemma Asked(cfg: Config, n: nat, c: Choice, calm: bool)
    requires cfg.recoveryLimit > 0 && n > 0 && c == Plain(c.text)
    ensures CanShow(cfg, Onward(Scene(Running, Idles(n), [], true, [Finished], calm), 0, Commit(Question(c.text))))
  {
    var s0 := Start0(n, calm);
    var s1 := Scene(Queued, Idles(n), [0], true, [Finished], calm);
    var s2 := Scene(Running, Idles(n), [], true, [Finished], calm);
    assert CanShow(cfg, s1) by {
      Created(cfg, n, c.text, calm);
      Enqueued(cfg, s0, 0);
      assert s1 == s0.(ready := [0] + s0.ready, marked := true, callers := s0.callers[0 := Finished]);
    }
    assert CanShow(cfg, Onward(s2, 0, PreCheck)) by {
      Claimed(cfg, s1, 0, c);
      assert Onward(s2, 0, PreCheck) == At(s1, 0, Executing(0, PreCheck)).(ready := [], status := Running);
    }
    Asks(cfg, s2, c);
  }

  // ---- the question is committed ----

  lemma CommitHop(cfg: Config, scene: Scene, c: Choice, ending: Ending)
    requires |scene.workers| > 0 && scene.workers[0] == Executing(0, Commit(ending)) && scene.status == Running
    requires ending.Finish? && (ending.status == WaitingInput || (ending.status == Success && scene.reported))
    requires !c.recover
    ensures Moves(cfg, scene, Work(0, c), At(scene, 0, Acking(0, false)).(status := ending.status))
  {
    var next := At(scene, 0, Acking(0, false)).(status := ending.status);
    forall s: Sys | s.cfg == cfg && Shows(s, scene) ensures WorkShows(s, scene, 0, c, next) {
      assert WorkerOp(s, s.workers[0], c) == Some((0, EndingOp(ending)));
    }
    WorkHop(cfg, scene, 0, c, next);
  }

  lemma AckHop(cfg: Config, scene: Scene, c: Choice, removed: bool)
    requires |scene.workers| > 0 && scene.workers[0] == Acking(0, removed) && !c.recover
    ensures Moves(cfg, scene, Work(0, c),
                  if removed then At(scene, 0, Idle).(marked := false) else At(scene, 0, Acking(0, true)))
  {
    var next := if removed then At(scene, 0, Idle).(marked := false) else At(scene, 0, Acking(0, true));
    forall s: Sys | s.cfg == cfg && Shows(s, scene) ensures WorkShows(s, scene, 0, c, next) {
    }
    WorkHop(cfg, scene, 0, c, next);
  }

  lemma Committed(cfg: Config, scene: Scene, c: Choice, ending: Ending)
    requires CanShow(cfg, scene) && |scene.workers| > 0 && scene.workers[0] == Executing(0, Commit(ending))
    requires scene.status == Running && !c.recover
    requires ending.Finish? && (ending.status == WaitingInput || (ending.status == Success && scene.reported))
    ensures CanShow(cfg, At(scene, 0, Acking(0, false)).(status := ending.status))
  {
    CommitHop(cfg, scene, c, ending);
    Hop(cfg, scene, Work(0, c), At(scene, 0, Acking(0, false)).(status := ending.status));
  }

  lemma Acked(cfg: Config, scene: Scene, c: Choice, removed: bool)
    requires CanShow(cfg, scene) && |scene.workers| > 0 && scene.workers[0] == Acking(0, removed) && !c.recover
    ensures CanShow(cfg, if removed then At(scene, 0, Idle).(marked := false) else At(scene, 0, Acking(0, true)))
  {
    AckHop(cfg, scene, c, removed);
    Hop(cfg, scene, Work(0, c),
        if removed then At(scene, 0, Idle).(marked := false) else At(scene, 0, Acking(0, true)));
  }

  /** Worker 0 commits the question and acknowledges the task. */
  lemma Acknowledged(cfg: Config, scene: Scene, c: Choice, ending: Ending)
    requires CanShow(cfg, scene) && |scene.workers| > 0 && scene.workers[0] == Executing(0, Commit(ending))
    requires scene.status == Running && ending.Finish? && ending.status == WaitingInput && !c.recover
    ensures CanShow(cfg, At(scene, 0, Idle).(status := WaitingInput, marked := false))
  {
    var s1 := At(scene, 0, Acking(0, false)).(status := WaitingInput);
    var s2 := At(s1, 0, Acking(0, true));
    assert CanShow(cfg, s1) by { Committed(cfg, scene, c, ending); }
    assert CanShow(cfg, s2) by { Acked(cfg, s1, c, false); }
    Acked(cfg, s2, c, true);
    assert At(s2, 0, Idle).(marked := false) == At(scene, 0, Idle).(status := WaitingInput, marked := false);
  }

  /** Worker 0 ran the task up to its clarification question and is idle again. */
  lemma Waits(cfg: Config, n: nat, c: Choice, calm: bool)
    requires cfg.recoveryLimit > 0 && n > 0 && c == Plain(c.text)
    ensures CanShow(cfg, Scene(WaitingInput, Idles(n), [], false, [Finished], calm))
  {
    var s0 := At(Scene(Running, Idles(n), [], true, [Finished], calm), 0, Executing(0, Commit(Question(c.text))));
    assert CanShow(cfg, s0) by { Asked(cfg, n, c, calm); }
    Acknowledged(cfg, s0, c, Question(c.text));
    assert At(s0, 0, Idle).(status := WaitingInput, marked := false)
        == Scene(WaitingInput, Idles(n), [], false, [Finished], calm);
  }

  /** The answer's API call puts the task into the ready list. */
  lemma Requeued(cfg: Config, scene: Scene)
    requires CanShow(cfg, scene) && scene.callers == [Finished, Clearing(0)] && !scene.marked
    ensures CanShow(cfg, scene.(ready := [0] + scene.ready, marked := true, callers := [Finished, Finished]))
  {
    var s1 := scene.(callers := [Finished, Enqueuing(0, AtMarker)]);
    assert CanShow(cfg, s1) by {
      assert s1 == scene.(callers := scene.callers[1 := Enqueuing(0, AtMarker)]);
      CallerHop(cfg, scene, 1, s1);
      Hop(cfg, scene, CallerStep(1), s1);
    }
    Enqueued(cfg, s1, 1);
    assert s1.callers[1 := Finished] == [Finished, Finished];
  }

  /** The user answers. */
  lemma Answered(cfg: Config, scene: Scene)
    requires CanShow(cfg, scene) && scene.status == WaitingInput && scene.callers == [Finished] && !scene.marked
    ensures CanShow(cfg, scene.(status := Queued, ready := [0] + scene.ready, marked := true,
                                callers := [Finished, Finished]))
  {
    Clarified(cfg, scene);
    assert scene.callers + [Clearing(0)] == [Finished, Clearing(0)];
    Requeued(cfg, scene.(status := Queued, callers := [Finished, Clearing(0)]));
  }

  /** Log and row part: the log says running and the row something else. */
  predicate LogRunsRowIs(s: Sys, id: Id, status: TaskStatus) {
    HasStatus(s, id, status) && status != Running && StatusFold(s.tasks[id].log) == Some(Running)
  }

  /** The "started" event of a worker on a row that is not running any more. */
  lemma StartedDisagrees(s: Sys, w: nat, status: TaskStatus, c: Choice)
    requires HasStatus(s, 0, status) && status != Running && w < |s.workers|
    requires s.workers[w] == Executing(0, Start(LoadContext, START))
    ensures LogRunsRowIs(Step(s, Work(w, c)), 0, status)
  {
    var op := EmitNode(Protocol.Name(LoadContext), "started");
    RowAfter(s, Work(w, c), 0);
    EventsEffect(op, s.tasks[0], s.now);
    FoldAppend(s.tasks[0].log, Events(op, s.tasks[0], TaskRecord.Updated(op, s.tasks[0], s.now)));
  }
}
