/** One worker, and a websocket connection that acts on a status which it still holds: runs in
    which the task is cancelled or requeued under its executor, leaves success, ends twice, or
    is reported running when it is not. */
module HeldStatusTrace {
  import opened Basics
  import opened Schema
  import opened TaskRecord
  import opened TaskQueue
  import opened Graph
  import opened Protocol
  import opened Lifecycle
  import opened Scenes
  import Conservation
  import Numbering

  // ---- the user answers on connection 0, which then holds the task as queued ----

  lemma ClarifyOnShows(s: Sys, scene: Scene)
    requires Shows(s, scene) && scene.status == WaitingInput
    requires scene.held == None || scene.held == Some(WaitingInput)
    ensures Shows(Step(s, ClarifyOn(0, 0, |s.messages|)),
                  scene.(status := Queued, callers := scene.callers + [Clearing(0)], held := Some(Queued)))
  {
    var seen := |s.messages|;
    assert s.messages[seen..] == [];
    Numbering.CommitsIffFresh(s.messages, MessageInsert(0, seen, None));
    NumbersStep(s, ClarifyOn(0, 0, seen));
    RowAfter(s, ClarifyOn(0, 0, seen), 0);
  }

  lemma ClarifiedOn(cfg: Config, scene: Scene)
    requires CanShow(cfg, scene) && scene.status == WaitingInput && !scene.calm
    requires scene.held == None || scene.held == Some(WaitingInput)
    ensures CanShow(cfg, scene.(status := Queued, callers := scene.callers + [Clearing(0)], held := Some(Queued)))
  {
    var acts :| ShownBy(cfg, acts, scene);
    var s := Run(cfg, |scene.workers|, acts);
    ClarifyOnShows(s, scene);
    Extended(cfg, acts, scene, ClarifyOn(0, 0, |s.messages|),
             scene.(status := Queued, callers := scene.callers + [Clearing(0)], held := Some(Queued)));
  }

  function Waiting(): Scene { Scene(WaitingInput, [Idle], [], false, [Finished], false) }

  lemma WaitsAlone(cfg: Config, c: Choice)
    requires cfg.recoveryLimit > 0 && c == Plain(c.text)
    ensures CanShow(cfg, Waiting())
  {
    Waits(cfg, 1, c, false);
    assert Idles(1) == [Idle];
  }

  /** The answered task is ready, and the connection holds it as queued. */
  function HeldQueued(): Scene {
    Scene(Queued, [Idle], [0], true, [Finished, Finished], false).(held := Some(Queued))
  }

  lemma AnsweredOn(cfg: Config, c: Choice)
    requires cfg.recoveryLimit > 0 && c == Plain(c.text)
    ensures CanShow(cfg, HeldQueued())
  {
    var s1 := Waiting().(status := Queued, callers := [Finished, Clearing(0)], held := Some(Queued));
    WaitsAlone(cfg, c);
    ClarifiedOn(cfg, Waiting());
    assert Waiting().callers + [Clearing(0)] == [Finished, Clearing(0)];
    Requeued(cfg, s1);
    assert [0] + s1.ready == [0];
  }

  /** The only worker executes the task, and the connection holds that status of it. */
  function Busy(phase: Phase, held: TaskStatus): Scene {
    Onward(Scene(Running, [Idle], [], true, [Finished, Finished], false).(held := Some(held)), 0, phase)
  }

  lemma BusyOn(cfg: Config, c: Choice, scene: Scene, held: TaskStatus)
    requires CanShow(cfg, scene) && scene == HeldQueued().(held := Some(held)) && c == Plain(c.text)
    ensures CanShow(cfg, Busy(PreCheck, held))
  {
    Claimed(cfg, scene, 0, c);
    assert Onward(scene, 0, PreCheck).(ready := [], status := Running) == Busy(PreCheck, held);
  }

  lemma StartsOn(cfg: Config, c: Choice, held: TaskStatus)
    requires CanShow(cfg, Busy(PreCheck, held)) && c == Plain(c.text)
    ensures CanShow(cfg, Busy(Start(LoadContext, START), held))
  {
    var idle := Scene(Running, [Idle], [], true, [Finished, Finished], false).(held := Some(held));
    Onwards(cfg, idle, 0, PreCheck, Entry(LoadContext, START), c, Start(LoadContext, START));
  }

  // ---- cancelled under its executor ----

  lemma CancelsHeldQueued(s: Sys, scene: Scene)
    requires Shows(s, scene) && scene.held == Some(Queued)
    ensures HasStatus(Step(s, CancelOn(0, 0)), 0, Cancelled) && Step(s, CancelOn(0, 0)).workers == s.workers
  {
    RowAfter(s, CancelOn(0, 0), 0);
  }

  ghost predicate Ended(cfg: Config, acts: seq<Action>) {
    var s := Run(cfg, 1, acts);
    HasStatus(s, 0, Cancelled) && s.workers == [Executing(0, Start(LoadContext, START))] && Runs(s, 0, 0)
  }

  lemma EndedAfter(cfg: Config, acts: seq<Action>)
    requires ShownBy(cfg, acts, Busy(Start(LoadContext, START), Queued))
    ensures Ended(cfg, acts + [CancelOn(0, 0)])
  {
    RunSnoc(cfg, 1, acts, CancelOn(0, 0));
    CancelsHeldQueued(Run(cfg, 1, acts), Busy(Start(LoadContext, START), Queued));
  }

  /** Some run of one worker ends with a cancelled task that the worker still executes: a
      connection that answered the task's question cancelled it while it was running. */
  lemma CancelledUnderExecutor(cfg: Config)
    requires cfg.recoveryLimit > 0
    ensures exists acts :: Ended(cfg, acts)
  {
    var c := Plain("month");
    AnsweredOn(cfg, c);
    BusyOn(cfg, c, HeldQueued(), Queued);
    StartsOn(cfg, c, Queued);
    var acts :| ShownBy(cfg, acts, Busy(Start(LoadContext, START), Queued));
    EndedAfter(cfg, acts);
  }

  /** The next event of that worker tells a running task: log and row part. */
  lemma OneWorkerDisagrees(cfg: Config)
    requires cfg.recoveryLimit > 0
    ensures exists acts :: LogRunsRowIs(Run(cfg, 1, acts), 0, Cancelled)
  {
    CancelledUnderExecutor(cfg);
    var acts :| Ended(cfg, acts);
    StartedDisagrees(Run(cfg, 1, acts), 0, Cancelled, Plain(""));
    RunSnoc(cfg, 1, acts, Work(0, Plain("")));
    assert LogRunsRowIs(Run(cfg, 1, acts + [Work(0, Plain(""))]), 0, Cancelled);
  }

  // ---- requeued under its executor ----

  lemma RequeuesHeldWaiting(s: Sys, scene: Scene)
    requires Shows(s, scene) && scene.held == Some(WaitingInput)
    ensures var a := ClarifyOn(0, 0, |s.messages|);
      HasStatus(Step(s, a), 0, Queued) && Step(s, a).workers == s.workers
  {
    var ins := MessageInsert(0, |s.messages|, None);
    assert s.messages[|s.messages|..] == [];
    Numbering.CommitsIffFresh(s.messages, ins);
    RowAfter(s, ClarifyOn(0, 0, |s.messages|), 0);
  }

  lemma LoadHop(cfg: Config, scene: Scene)
    requires scene.held == None
    ensures Moves(cfg, scene, Load(0, 0), scene.(held := Some(scene.status)))
  {
  }

  ghost predicate QueuedWhileRun(cfg: Config, acts: seq<Action>) {
    HasStatus(Run(cfg, 1, acts), 0, Queued) && Runs(Run(cfg, 1, acts), 0, 0)
  }

  lemma RequeuedAfter(cfg: Config, acts: seq<Action>)
    requires ShownBy(cfg, acts, Busy(PreCheck, WaitingInput))
    ensures QueuedWhileRun(cfg, acts + [ClarifyOn(0, 0, |Run(cfg, 1, acts).messages|)])
  {
    var s := Run(cfg, 1, acts);
    RunSnoc(cfg, 1, acts, ClarifyOn(0, 0, |s.messages|));
    RequeuesHeldWaiting(s, Busy(PreCheck, WaitingInput));
    assert s.workers == [Executing(0, PreCheck)];
  }

  lemma LoadsWaiting(cfg: Config, c: Choice)
    requires cfg.recoveryLimit > 0 && c == Plain(c.text)
    ensures CanShow(cfg, HeldQueued().(held := Some(WaitingInput)))
  {
    var s1 := Waiting().(held := Some(WaitingInput));
    WaitsAlone(cfg, c);
    LoadHop(cfg, Waiting());
    Hop(cfg, Waiting(), Load(0, 0), s1);
    Answered(cfg, s1);
    assert [0] + s1.ready == [0];
  }

  /** Some run of one worker ends with a queued task that the worker still executes: the
      question was answered on another connection, and again on one that still held it. */
  lemma RequeuedUnderExecutor(cfg: Config)
    requires cfg.recoveryLimit > 0
    ensures exists acts :: QueuedWhileRun(cfg, acts)
  {
    var c := Plain("month");
    LoadsWaiting(cfg, c);
    BusyOn(cfg, c, HeldQueued().(held := Some(WaitingInput)), WaitingInput);
    var acts :| ShownBy(cfg, acts, Busy(PreCheck, WaitingInput));
    RequeuedAfter(cfg, acts);
  }

  // ---- ended twice ----

  /** More `done` events than entries into a terminal status. */
  ghost predicate DoneTooOften(cfg: Config, acts: seq<Action>) {
    Conservation.DoneIn(Run(cfg, 1, acts), 0) > Conservation.Count(Conservation.TurnsTerminal, cfg, 1, acts, 0)
  }

  lemma CountsAgain(cfg: Config, acts: seq<Action>, a: Action)
    requires Conservation.Happens(Conservation.EndedAgain, Run(cfg, 1, acts), a, 0)
    ensures DoneTooOften(cfg, acts + [a])
  {
    assert (acts + [a])[..|acts|] == acts;
    Conservation.DoneIsCounted(cfg, 1, acts + [a], 0);
  }

  lemma EndsAfterRest(s: Sys)
    requires Shows(s, HeldQueued())
    ensures Conservation.Happens(Conservation.EndedAgain, Step(s, CancelTask(0)), CancelOn(0, 0), 0)
  {
    RowAfter(s, CancelTask(0), 0);
  }

  lemma EndsTwiceAfter(cfg: Config, acts: seq<Action>)
    requires ShownBy(cfg, acts, HeldQueued())
    ensures DoneTooOften(cfg, acts + [CancelTask(0)] + [CancelOn(0, 0)])
  {
    RunSnoc(cfg, 1, acts, CancelTask(0));
    EndsAfterRest(Run(cfg, 1, acts));
    CountsAgain(cfg, acts + [CancelTask(0)], CancelOn(0, 0));
  }

  /** Some run of one worker appends a second `done` although the task ended once: the
      connection that answered it cancels it after a REST call did. */
  lemma EndsTwice(cfg: Config)
    requires cfg.recoveryLimit > 0
    ensures exists acts :: DoneTooOften(cfg, acts)
  {
    AnsweredOn(cfg, Plain("month"));
    var acts :| ShownBy(cfg, acts, HeldQueued());
    EndsTwiceAfter(cfg, acts);
  }

  // ---- reported running after the end ----

  function BusyUnheld(): Scene { Onward(Scene(Running, [Idle], [], true, [Finished], false), 0, PreCheck) }

  lemma RunsAlone(cfg: Config, c: Choice)
    requires cfg.recoveryLimit > 0 && c == Plain(c.text)
    ensures CanShow(cfg, BusyUnheld())
  {
    var s0, s1 := Start0(1, false), Scene(Queued, [Idle], [0], true, [Finished], false);
    assert Idles(1) == [Idle];
    assert CanShow(cfg, s1) by {
      Created(cfg, 1, "", false);
      Enqueued(cfg, s0, 0);
      assert s1 == s0.(ready := [0] + s0.ready, marked := true, callers := s0.callers[0 := Finished]);
    }
    Claimed(cfg, s1, 0, c);
    assert Onward(s1, 0, PreCheck).(ready := [], status := Running) == BusyUnheld();
  }

  lemma Stopped(s: Sys, c: Choice)
    requires HasStatus(s, 0, Running) && s.tasks[0].cancelRequested && s.workers == [Executing(0, PreCheck)]
    ensures var t := Step(Step(s, Work(0, c)), Work(0, c));
      HasStatus(t, 0, Cancelled) && t.held == s.held
  {
    var s1 := Step(s, Work(0, c));
    RowAfter(s, Work(0, c), 0);
    assert s1.workers[0] == Executing(0, Commit(Stop));
    RowAfter(s1, Work(0, c), 0);
  }

  lemma ReportedLate(s: Sys)
    requires HasStatus(s, 0, Cancelled) && (0, 0) in s.held && s.held[(0, 0)].status == Running
    ensures Occurs(HeldReport, s, CancelOn(0, 0), 0) && LogRunsRowIs(Step(s, CancelOn(0, 0)), 0, Cancelled)
  {
    var op := SessionCancel(s.held[(0, 0)]);
    RowAfter(s, CancelOn(0, 0), 0);
    EventsEffect(op, s.tasks[0], s.now);
    FoldAppend(s.tasks[0].log, Events(op, s.tasks[0], TaskRecord.Updated(op, s.tasks[0], s.now)));
  }

  /** A cancel of the running task, its executor's stop, and the same command again. */
  lemma CancelsTwice(s: Sys, c: Choice)
    requires Shows(s, BusyUnheld()) && c == Plain(c.text)
    ensures var t := Step(Step(Step(s, CancelOn(0, 0)), Work(0, c)), Work(0, c));
      Occurs(HeldReport, t, CancelOn(0, 0), 0) && LogRunsRowIs(Step(t, CancelOn(0, 0)), 0, Cancelled)
  {
    var s1 := Step(s, CancelOn(0, 0));
    RowAfter(s, CancelOn(0, 0), 0);
    Stopped(s1, c);
    ReportedLate(Step(Step(s1, Work(0, c)), Work(0, c)));
  }

  ghost predicate LateOn(cfg: Config, acts: seq<Action>) {
    && Occurs(HeldReport, Run(cfg, 1, acts), CancelOn(0, 0), 0)
    && LogRunsRowIs(Run(cfg, 1, acts + [CancelOn(0, 0)]), 0, Cancelled)
  }

  lemma LateEnds(cfg: Config, acts: seq<Action>)
    requires var t := Run(cfg, 1, acts);
      Occurs(HeldReport, t, CancelOn(0, 0), 0) && LogRunsRowIs(Step(t, CancelOn(0, 0)), 0, Cancelled)
    ensures LateOn(cfg, acts)
  {
    RunSnoc(cfg, 1, acts, CancelOn(0, 0));
  }

  /** The cancel, and two steps of the executor. */
  lemma LateAfter(cfg: Config, acts: seq<Action>, c: Choice) returns (more: seq<Action>)
    requires ShownBy(cfg, acts, BusyUnheld()) && c == Plain(c.text)
    ensures LateOn(cfg, more)
  {
    var s := Run(cfg, 1, acts);
    assert Shows(s, BusyUnheld());
    CancelsTwice(s, c);
    var t := Step(Step(Step(s, CancelOn(0, 0)), Work(0, c)), Work(0, c));
    more := Three(cfg, acts, CancelOn(0, 0), Work(0, c), Work(0, c));
    assert Run(cfg, 1, more) == t;
    LateEnds(cfg, more);
  }

  lemma Three(cfg: Config, acts: seq<Action>, a: Action, b: Action, c: Action) returns (more: seq<Action>)
    ensures Run(cfg, 1, more) == Step(Step(Step(Run(cfg, 1, acts), a), b), c)
  {
    RunSnoc(cfg, 1, acts, a);
    RunSnoc(cfg, 1, acts + [a], b);
    RunSnoc(cfg, 1, acts + [a] + [b], c);
    more := acts + [a] + [b] + [c];
  }

  /** A cancel sent twice on a connection: the second one reaches a task that has ended, and
      says that it is running. */
  lemma CancelTwiceDisagrees(cfg: Config)
    requires cfg.recoveryLimit > 0
    ensures exists acts :: LateOn(cfg, acts)
  {
    RunsAlone(cfg, Plain("month"));
    var acts :| ShownBy(cfg, acts, BusyUnheld());
    var more := LateAfter(cfg, acts, Plain("month"));
  }

  // ---- success is left ----

  function Oracles(o: Oracle, seen: nat): Choice { Choice(false, [], false, None, false, o, "", seen) }

  function Drafted(o: Oracle): GraphState { START.(report := Some(Draft(o))) }

  /** The graph states of a run that renders its first draft. */
  function Validated(cfg: Config, o: Oracle): GraphState
    requires cfg.validator.validate(Draft(o)).Some?
  {
    Drafted(o).(report := cfg.validator.validate(Draft(o)), valid := true)
  }

  function Rendered(cfg: Config, o: Oracle): GraphState
    requires cfg.validator.validate(Draft(o)).Some?
    requires cfg.validator.validate(cfg.validator.validate(Draft(o)).value).Some?
  {
    var report := cfg.validator.validate(cfg.validator.validate(Draft(o)).value).value;
    Validated(cfg, o).(report := Some(WithFiles(report, o.files)))
  }

  /** A run of the graph can end in a report that is stored. */
  predicate CanReport(cfg: Config, o: Oracle) {
    && !o.missingFields
    && cfg.validator.validate(Draft(o)).Some?
    && cfg.validator.validate(cfg.validator.validate(Draft(o)).value).Some?
    && Persistable(cfg, Rendered(cfg, o)).Some?
  }

  /** The nodes between the question and the report: they leave the graph state alone. */
  predicate Analysis(n: Node) {
    n == BuildAnalysisPlan || n == QueryData || n == ValidateData || n == AnalyzeWithPandas || n == BuildEvidence
    || n == DetermineAttribution
  }

  lemma AnalysisPasses(cfg: Config, scene: Scene, n: Node, n': Node, c: Choice)
    requires |scene.workers| > 0 && CanShow(cfg, Onward(scene, 0, Entry(n, START))) && scene.status == Running
    requires !c.recover && !c.useTool && c.raised.None? && Analysis(n) && Next(n, START) == Some(n')
    ensures CanShow(cfg, Onward(scene, 0, Entry(n', START)))
  {
    NodeDone(cfg, scene, 0, n, START, c, START, Entry(n', START));
  }

  lemma AnalysisGoesOn(n: Node)
    requires Analysis(n)
    ensures Next(n, START).Some? && Rank(Next(n, START).value, START) < Rank(n, START)
    ensures Analysis(Next(n, START).value) || Next(n, START).value == BuildReportIR
  {
  }

  lemma {:induction false} Analyses(cfg: Config, scene: Scene, n: Node, c: Choice)
    requires |scene.workers| > 0 && CanShow(cfg, Onward(scene, 0, Entry(n, START)))
    requires scene.status == Running && !c.recover && !c.useTool && c.raised.None?
    requires Analysis(n) || n == BuildReportIR
    ensures CanShow(cfg, Onward(scene, 0, Entry(BuildReportIR, START)))
    decreases Rank(n, START)
  {
    if n != BuildReportIR {
      AnalysisGoesOn(n);
      var n' := Next(n, START).value;
      AnalysisPasses(cfg, scene, n, n', c);
      Analyses(cfg, scene, n', c);
    }
  }

  lemma Builds(cfg: Config, scene: Scene, o: Oracle)
    requires |scene.workers| > 0 && CanShow(cfg, Onward(scene, 0, Entry(BuildReportIR, START)))
    requires scene.status == Running
    ensures CanShow(cfg, Onward(scene, 0, Entry(ValidateReport, Drafted(o))))
  {
    NodeDone(cfg, scene, 0, BuildReportIR, START, Oracles(o, 0), Drafted(o), Entry(ValidateReport, Drafted(o)));
  }

  lemma Validates(cfg: Config, scene: Scene, o: Oracle)
    requires |scene.workers| > 0 && CanShow(cfg, Onward(scene, 0, Entry(ValidateReport, Drafted(o))))
    requires scene.status == Running && cfg.validator.validate(Draft(o)).Some?
    ensures CanShow(cfg, Onward(scene, 0, Entry(RenderReport, Validated(cfg, o))))
  {
    var g := Validated(cfg, o);
    NodeDone(cfg, scene, 0, ValidateReport, Drafted(o), Oracles(o, 0), g, Entry(RenderReport, g));
  }

  lemma Renders(cfg: Config, scene: Scene, o: Oracle)
    requires cfg.validator.validate(Draft(o)).Some?
    requires |scene.workers| > 0 && CanShow(cfg, Onward(scene, 0, Entry(RenderReport, Validated(cfg, o))))
    requires scene.status == Running && CanReport(cfg, o)
    ensures CanShow(cfg, Onward(scene, 0, Persisting(Rendered(cfg, o))))
  {
    var g := Rendered(cfg, o);
    NodeDone(cfg, scene, 0, RenderReport, Validated(cfg, o), Oracles(o, 0), g, Persisting(g));
  }

  const SUCCEEDED := Finish(Success, Some("report_ready"), None)

  lemma PersistsResult(s: Sys, scene: Scene, o: Oracle)
    requires Shows(s, scene) && |scene.workers| > 0 && CanReport(s.cfg, o) && !scene.reported
    requires scene.workers[0] == Executing(0, Persisting(Rendered(s.cfg, o))) && scene.status == Running
    ensures Shows(Step(s, Work(0, Oracles(o, |s.messages|))), Onward(scene, 0, PostCheck(SUCCEEDED)).(reported := true))
  {
    var c := Oracles(o, |s.messages|);
    assert s.messages[|s.messages|..] == [];
    Numbering.CommitsIffFresh(s.messages, MessageInsert(0, |s.messages|, None));
    assert MessageCommits(s, 0, |s.messages|);
    WorkStep(s, scene, 0, c, Onward(scene, 0, PostCheck(SUCCEEDED)).(reported := true));
  }

  /** There are validators and contents for which this is so. */
  lemma SomeReport(markerTtl: nat, recoveryLimit: nat)
    ensures exists cfg: Config, o: Oracle :: Projects(cfg.validator) && CanReport(cfg, o)
              && cfg.markerTtl == markerTtl && cfg.recoveryLimit == recoveryLimit
  {
    var v := Validator((p: Json) => if NonEmptyDict(p) then Some(p) else None, (p, errors) => Draft(Plain("").oracle));
    var files := [Obj(map[FileType := Str("md")]), Obj(map[FileType := Str("html")])];
    var cfg, o := Config(v, markerTtl, recoveryLimit), Oracle(false, map[], Null, files);
    ReportsHere(cfg, o);
    assert Projects(cfg.validator) && CanReport(cfg, o);
  }

  lemma ReportsHere(cfg: Config, o: Oracle)
    requires forall p: Json :: cfg.validator.validate(p) == if NonEmptyDict(p) then Some(p) else None
    requires !o.missingFields && |o.files| == 2
    requires o.files == [Obj(map[FileType := Str("md")]), Obj(map[FileType := Str("html")])]
    ensures CanReport(cfg, o)
  {
    assert SchemaVersion in Draft(o).fields;
    var report := WithFiles(Draft(o), o.files);
    assert SchemaVersion in report.fields && report.fields[GeneratedFiles] == Arr(o.files);
    assert Schema.At(o.files[0], FileType) == Str("md") && Schema.At(o.files[1], FileType) == Str("html");
  }

  lemma Persists(cfg: Config, scene: Scene, o: Oracle)
    requires |scene.workers| > 0 && CanReport(cfg, o) && CanShow(cfg, Onward(scene, 0, Persisting(Rendered(cfg, o))))
    requires scene.status == Running && !scene.reported
    ensures CanShow(cfg, Onward(scene, 0, PostCheck(SUCCEEDED)).(reported := true))
  {
    var from := Onward(scene, 0, Persisting(Rendered(cfg, o)));
    var next := Onward(scene, 0, PostCheck(SUCCEEDED)).(reported := true);
    var acts :| ShownBy(cfg, acts, from);
    var s := Run(cfg, |from.workers|, acts);
    CfgKept(Init(cfg, |from.workers|), acts);
    OnwardAgain(scene, 0, Persisting(Rendered(cfg, o)), PostCheck(SUCCEEDED));
    PersistsResult(s, from, o);
    Extended(cfg, acts, from, Work(0, Oracles(o, |s.messages|)), next);
  }

  /** Worker 0 commits success. */
  lemma Succeeds(cfg: Config, scene: Scene, o: Oracle)
    requires |scene.workers| > 0 && scene.reported && CanShow(cfg, Onward(scene, 0, PostCheck(SUCCEEDED)))
    requires scene.status == Running
    ensures CanShow(cfg, Scenes.At(scene, 0, Acking(0, false)).(status := Success))
  {
    var c := Oracles(o, 0);
    OnwardAgain(scene, 0, PostCheck(SUCCEEDED), Commit(SUCCEEDED));
    Executed(cfg, Onward(scene, 0, PostCheck(SUCCEEDED)), 0, PostCheck(SUCCEEDED), c, Commit(SUCCEEDED));
    Committed(cfg, Onward(scene, 0, Commit(SUCCEEDED)), c, SUCCEEDED);
    assert Scenes.At(Onward(scene, 0, Commit(SUCCEEDED)), 0, Acking(0, false)) == Scenes.At(scene, 0, Acking(0, false));
  }

  /** The whole execution, from its first check to success. */
  lemma RunsToSuccess(cfg: Config, scene: Scene, o: Oracle)
    requires |scene.workers| > 0 && CanShow(cfg, Onward(scene, 0, PreCheck)) && CanReport(cfg, o)
    requires scene.status == Running && !scene.reported
    ensures CanShow(cfg, Scenes.At(scene, 0, Acking(0, false)).(status := Success, reported := true))
  {
    var c := Oracles(o, 0);
    Defines(cfg, scene, 0, c, START);
    Analyses(cfg, scene, BuildAnalysisPlan, c);
    Builds(cfg, scene, o);
    Validates(cfg, scene, o);
    Renders(cfg, scene, o);
    Persists(cfg, scene, o);
    var done := scene.(reported := true);
    assert Onward(scene, 0, PostCheck(SUCCEEDED)).(reported := true) == Onward(done, 0, PostCheck(SUCCEEDED));
    Succeeds(cfg, done, o);
    assert Scenes.At(done, 0, Acking(0, false)) == Scenes.At(scene, 0, Acking(0, false)).(reported := true);
  }

  function Successful(): Scene {
    Scene(Success, [Acking(0, false)], [], true, [Finished, Finished], false).(held := Some(Queued), reported := true)
  }

  lemma SucceedsHeld(cfg: Config, o: Oracle)
    requires cfg.recoveryLimit > 0 && CanReport(cfg, o)
    ensures CanShow(cfg, Successful())
  {
    var idle := Scene(Running, [Idle], [], true, [Finished, Finished], false).(held := Some(Queued));
    AnsweredOn(cfg, Plain("month"));
    BusyOn(cfg, Plain("month"), HeldQueued(), Queued);
    RunsToSuccess(cfg, idle, o);
    assert Scenes.At(idle, 0, Acking(0, false)).(status := Success, reported := true) == Successful();
  }

  /** The command takes the task from success to cancelled. */
  ghost predicate LeavesSuccess(cfg: Config, acts: seq<Action>) {
    HasStatus(Run(cfg, 1, acts), 0, Success) && HasStatus(Run(cfg, 1, acts + [CancelOn(0, 0)]), 0, Cancelled)
  }

  /** If any report can be stored at all, then in some run of one worker a connection that
      answered the task's question cancels the task after its success. */
  lemma SuccessLeft(cfg: Config, o: Oracle)
    requires cfg.recoveryLimit > 0 && CanReport(cfg, o)
    ensures exists acts :: LeavesSuccess(cfg, acts)
  {
    SucceedsHeld(cfg, o);
    var acts :| ShownBy(cfg, acts, Successful());
    RunSnoc(cfg, 1, acts, CancelOn(0, 0));
    CancelsHeldQueued(Run(cfg, 1, acts), Successful());
    assert LeavesSuccess(cfg, acts);
  }
}
