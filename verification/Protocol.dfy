/** The task lifecycle as a state machine: any number of API callers and workers over the
    database and Redis.  Every database transaction and every Redis command is one step;
    an action that is not enabled changes nothing, so every sequence of actions is a run.

    A REST call loads the row it locks.  A websocket connection has one session for all its
    commands, whose commits expire nothing: what it loaded of a task it keeps until a
    rollback, or until nothing refers to the task, and its commands act on that. */
module Protocol {
  import opened Basics
  import opened Schema
  import opened TaskRecord
  import opened TaskQueue
  import opened Graph
  import Numbering

  datatype Config = Config(validator: Validator, markerTtl: nat, recoveryLimit: nat)

  /** The next command of TaskQueue.enqueue; AtUndo deletes the marker after a failure. */
  datatype EnqueueStep = AtMarker | AtDrop | AtPush | AtUndo

  /** The Redis commands an API call still has to send after its transaction. */
  datatype Caller = Finished | Cancelling(id: Id) | Clearing(id: Id) | Enqueuing(id: Id, at: EnqueueStep)

  /** How a claimed task leaves `_process`. */
  datatype Ending =
    | Finish(status: TaskStatus, step: Option<string>, question: Option<string>)
    | Stop               // TaskCancelledError
    | Fail(code: string)

  const UNEXPECTED := Fail("AGENT_EXECUTION_FAILED")

  datatype ToolStage = CheckIn | EmitStarted | Operate | EmitFinished | CheckOut

  /** Where the executor of a claimed task is. */
  datatype Phase =
    | PreCheck
    | Entry(n: Node, g: GraphState)
    | Rebuild(n: Node, g: GraphState)
    | Start(n: Node, g: GraphState)
    | Body(n: Node, g: GraphState)
    | Tool(n: Node, g: GraphState, stage: ToolStage)
    | Exit(n: Node, g: GraphState)
    | NodeFailed(n: Node, ending: Ending)
    | NodeFinished(n: Node, g: GraphState)
    | Persisting(g: GraphState)
    | PostCheck(ending: Ending)
    | Commit(ending: Ending)

  datatype Worker =
    | Idle
    | Expiring(todo: seq<Id>)                      // recovery: waiting tasks found past the cutoff
    | Requeuing(todo: seq<Id>, at: EnqueueStep)    // recovery: queued tasks to enqueue
    | Looking(id: Id)                              // reserved, about to read the row
    | CancelSeen(id: Id)
    | Claiming(id: Id)
    | Executing(id: Id, phase: Phase)
    | Acking(id: Id, removed: bool)
    | Releasing(id: Id, removed: bool)

  /** What a worker step takes from outside: timers, models, data, failures, stale reads. */
  datatype Choice = Choice(
    recover: bool, expired: seq<Id>, useTool: bool, raised: Option<string>, redisDown: bool,
    oracle: Oracle, text: string, seen: nat)

  type Messages = seq<Numbering.Row<Option<string>>>

  /** `held` is what each connection's database session holds of a task's columns. */
  datatype Sys = Sys(
    cfg: Config, tasks: map<Id, Task>, created: seq<Id>, messages: Messages, redis: Redis,
    callers: seq<Caller>, workers: seq<Worker>, held: map<(nat, Id), Task>, now: nat)

  datatype Action =
    | Create(id: Id, conversation: nat, clientMsg: string, seen: nat)
    | CancelTask(id: Id)
    | Clarify(id: Id, seen: nat)
    | RetryTask(id: Id)
    | Load(k: nat, id: Id)            // connection k reads the task
    | Forget(k: nat, id: Id)          // a rollback expires it, or nothing refers to it any more
    | CancelOn(k: nat, id: Id)        // commands of connection k
    | ClarifyOn(k: nat, id: Id, seen: nat)
    | ResendOn(k: nat, id: Id)
    | CallerStep(i: nat)
    | CallerFault(i: nat, applied: bool)
    | CallerCrash(i: nat)
    | Work(w: nat, choice: Choice)
    | Fault(w: nat, choice: Choice, applied: bool)   // a database or Redis error
    | Crash(w: nat)
    | LapseCancel(id: Id)
    | Tick

  // ---- reads ----

  predicate HasStatus(s: Sys, id: Id, status: TaskStatus) { id in s.tasks && s.tasks[id].status == status }

  /** The ids with the given status, in order. */
  function Select(s: Sys, ids: seq<Id>, status: TaskStatus): (r: seq<Id>)
    ensures |r| <= |ids|
    ensures forall id :: id in r <==> id in ids && HasStatus(s, id, status)
  {
    if ids == [] then []
    else
      assert ids == ids[..|ids| - 1] + [ids[|ids| - 1]];
      Select(s, ids[..|ids| - 1], status)
      + if HasStatus(s, ids[|ids| - 1], status) then [ids[|ids| - 1]] else []
  }

  function Limit(ids: seq<Id>, limit: nat): seq<Id> { if |ids| <= limit then ids else ids[..limit] }

  /** cancellation_service.is_requested; with Redis down only the row is read. */
  predicate Requested(s: Sys, id: Id, c: Choice) {
    (!c.redisDown && id in s.redis.cancels) || (id in s.tasks && s.tasks[id].cancelRequested)
  }

  predicate Existing(s: Sys, conversation: nat, clientMsg: string, id: Id) {
    id in s.tasks && s.tasks[id].conversation == conversation && s.tasks[id].clientMsg == clientMsg
  }

  predicate Active(s: Sys, conversation: nat) {
    exists id :: id in s.tasks && s.tasks[id].conversation == conversation
      && (s.tasks[id].status == Queued || s.tasks[id].status == Running)
  }

  /** The task as connection k has it: a SELECT refreshes nothing that it holds. */
  function Known(s: Sys, k: nat, id: Id): Task
    requires id in s.tasks
  {
    if (k, id) in s.held then s.held[(k, id)] else s.tasks[id]
  }

  function MessageInsert(conversation: nat, seen: nat, clientMsg: Option<string>): Numbering.Insert<Option<string>> {
    Numbering.Insert(seen, conversation, [clientMsg])
  }

  predicate ClientMsgFree(messages: Messages, conversation: nat, clientMsg: string) {
    forall i :: 0 <= i < |messages| ==> !(messages[i].key == conversation && messages[i].payload == Some(clientMsg))
  }

  predicate Creates(s: Sys, a: Action)
    requires a.Create?
  {
    && a.id !in s.tasks
    && (forall id :: id in s.tasks ==> !Existing(s, a.conversation, a.clientMsg, id))
    && !Active(s, a.conversation)
    && Numbering.Commits(s.messages, MessageInsert(a.conversation, a.seen, Some(a.clientMsg)))
    && ClientMsgFree(s.messages, a.conversation, a.clientMsg)
  }

  predicate MessageCommits(s: Sys, id: Id, seen: nat)
    requires id in s.tasks
  {
    Numbering.Commits(s.messages, MessageInsert(s.tasks[id].conversation, seen, None))
  }

  function SeqNo(s: Sys, conversation: nat, seen: nat): nat {
    Numbering.FirstNumber(s.messages, MessageInsert(conversation, seen, None))
  }

  // ---- the executor ----

  function Name(n: Node): string {
    match n
    case LoadContext => "load_context" case DefineProblem => "define_problem"
    case AskClarification => "ask_clarification" case BuildAnalysisPlan => "build_analysis_plan"
    case QueryData => "query_data" case ValidateData => "validate_data"
    case AnalyzeWithPandas => "analyze_with_pandas" case BuildEvidence => "build_evidence"
    case DetermineAttribution => "determine_attribution" case BuildReportIR => "build_report_ir"
    case ValidateReport => "validate_report" case RenderReport => "render_report"
  }

  predicate HasFile(files: seq<Json>, kind: string) {
    exists i :: 0 <= i < |files| && At(files[i], FileType) == Str(kind)
  }

  /** persist gets past its checks on the rendered report. */
  function Persistable(cfg: Config, g: GraphState): Option<Json> {
    match g.report
    case None => None
    case Some(report) =>
      var files := Items(At(report, GeneratedFiles));
      if files != [] && HasFile(files, "md") && HasFile(files, "html") then cfg.validator.validate(report) else None
  }

  /** Stopped at a check, or past it. */
  function Checked(s: Sys, id: Id, c: Choice, stopped: Phase, passed: Phase): Phase {
    if Requested(s, id, c) then stopped else passed
  }

  /** The phase after an undisturbed step of the executor, short of committing. */
  function NextPhase(s: Sys, id: Id, p: Phase, c: Choice): Phase {
    match p
    case PreCheck => Checked(s, id, c, Commit(Stop), Entry(LoadContext, START))
    case Entry(n, g) =>
      Checked(s, id, c, Commit(Stop), if n == BuildReportIR && g.retries > 0 then Rebuild(n, g) else Start(n, g))
    case Rebuild(n, g) => Start(n, g)
    case Start(n, g) => Body(n, g)
    case Body(n, g) =>
      if c.useTool then Tool(n, g, CheckIn)
      else if c.raised.Some? then NodeFailed(n, Fail(c.raised.value))
      else
        (match Execute(s.cfg.validator, n, g, c.oracle)
         case Updated(g') => Exit(n, g')
         case Raised(code) => NodeFailed(n, Fail(code)))
    case Tool(n, g, stage) =>
      (match stage
       case CheckIn => Checked(s, id, c, NodeFailed(n, Stop), Tool(n, g, EmitStarted))
       case EmitStarted => Tool(n, g, Operate)
       case Operate => if c.raised.Some? then NodeFailed(n, Fail(c.raised.value)) else Tool(n, g, EmitFinished)
       case EmitFinished => Tool(n, g, CheckOut)
       case CheckOut => Checked(s, id, c, NodeFailed(n, Stop), Body(n, g)))
    case Exit(n, g) => Checked(s, id, c, NodeFailed(n, Stop), NodeFinished(n, g))
    case NodeFailed(_, ending) => Commit(ending)
    case NodeFinished(n, g) =>
      (match Next(n, g)
       case Some(n') => Entry(n', g)
       case None =>
         if n == AskClarification then PostCheck(Finish(WaitingInput, Some("ask_clarification"), Some(c.text)))
         else Persisting(g))
    case Persisting(g) =>
      if Persistable(s.cfg, g).None? then Commit(UNEXPECTED)
      else if id in s.tasks && s.tasks[id].results == [] && !MessageCommits(s, id, c.seen) then Commit(UNEXPECTED)
      else PostCheck(Finish(Success, Some("report_ready"), None))
    case PostCheck(ending) => Checked(s, id, c, Commit(Stop), Commit(ending))
    case Commit(_) => p
  }

  function EndingOp(e: Ending): Op {
    match e
    case Finish(status, step, question) => Transition(status, step, None, question)
    case Stop => Transition(Cancelled, None, None, None)
    case Fail(code) => Transition(Failed, None, Some(code), None)
  }

  /** The transaction an executor's step commits. */
  function PhaseOp(s: Sys, id: Id, p: Phase, c: Choice): Option<Op>
    requires id in s.tasks
  {
    match p
    case Rebuild(_, _) => Some(ReportRetry)
    case Start(n, _) => Some(EmitNode(Name(n), "started"))
    case NodeFailed(n, _) => Some(EmitNode(Name(n), "failed"))
    case NodeFinished(n, _) => Some(EmitNode(Name(n), "finished"))
    case Tool(n, _, EmitStarted) => Some(EmitTool(Name(n), Mark(c.text, "started")))
    case Tool(n, _, EmitFinished) =>
      Some(EmitTool(Name(n), Mark(c.text, if c.raised.Some? then "failed" else "finished")))
    case Persisting(g) =>
      (match Persistable(s.cfg, g)
       case None => None
       case Some(report) =>
         if !MessageCommits(s, id, c.seen) then None
         else Some(Persist(report, |Items(At(g.report.value, GeneratedFiles))|, |s.messages|,
                           SeqNo(s, s.tasks[id].conversation, c.seen), c.text)))
    case Commit(ending) => Some(EndingOp(ending))
    case _ => None
  }

  // ---- workers ----

  function NextWorker(s: Sys, worker: Worker, c: Choice): Worker {
    match worker
    case Idle =>
      if c.recover then Expiring(Limit(Select(s, c.expired, WaitingInput), s.cfg.recoveryLimit))
      else if s.redis.ready != [] then Looking(s.redis.ready[|s.redis.ready| - 1])
      else Idle
    case Expiring(todo) =>
      if todo == [] then Requeuing(Limit(Select(s, s.created, Queued), s.cfg.recoveryLimit), AtMarker)
      else Expiring(todo[1..])
    case Requeuing(todo, at) =>
      if todo == [] then Idle
      else
        (match at
         case AtMarker =>
           if Live(s.redis.markers, todo[0], s.now) then Requeuing(todo[1..], AtMarker) else Requeuing(todo, AtDrop)
         case AtDrop => Requeuing(todo, AtPush)
         case AtPush => Requeuing(todo[1..], AtMarker)
         case AtUndo => Idle)
    case Looking(id) =>
      if !HasStatus(s, id, Queued) then Acking(id, false)
      else if s.tasks[id].cancelRequested then CancelSeen(id)
      else Claiming(id)
    case CancelSeen(id) => Acking(id, false)
    case Claiming(id) => if HasStatus(s, id, Queued) then Executing(id, PreCheck) else Acking(id, false)
    case Executing(id, p) =>
      (match p
       case Commit(ending) =>
         if ending.Finish? && id in s.tasks && LacksResult(s.tasks[id], ending.status)
         then Executing(id, Commit(UNEXPECTED))
         else Acking(id, false)
       case _ => Executing(id, NextPhase(s, id, p, c)))
    case Acking(id, removed) => if removed then Idle else Acking(id, true)
    case Releasing(id, removed) => if !removed && id in s.redis.processing then Releasing(id, true) else Idle
  }

  function WorkerOp(s: Sys, worker: Worker, c: Choice): Option<(Id, Op)> {
    match worker
    case Expiring(todo) =>
      if todo == [] || todo[0] !in s.tasks then None
      else Some((todo[0], Transition(Cancelled, None, Some("CLARIFICATION_TIMEOUT"), None)))
    case CancelSeen(id) => if id in s.tasks then Some((id, Transition(Cancelled, None, None, None))) else None
    case Claiming(id) =>
      if id in s.tasks then Some((id, Transition(Running, Some("agent_graph"), None, None))) else None
    case Executing(id, p) =>
      if id !in s.tasks then None
      else (match PhaseOp(s, id, p, c) case Some(op) => Some((id, op)) case None => None)
    case _ => None
  }

  function EnqueueCommand(id: Id, at: EnqueueStep): Command {
    match at
    case AtMarker => SetMarker(id) case AtDrop => DropProcessing(id)
    case AtPush => PushReady(id) case AtUndo => DeleteMarker(id)
  }

  function WorkerCommand(worker: Worker, c: Choice): Option<Command> {
    match worker
    case Idle => if c.recover then None else Some(PopReady)
    case Requeuing(todo, at) => if todo == [] then None else Some(EnqueueCommand(todo[0], at))
    case Acking(id, removed) => Some(if removed then DeleteMarker(id) else DropOne(id))
    case Releasing(id, removed) => Some(if removed then PushBack(id) else DropOne(id))
    case _ => None
  }

  /** Where an error leaves a worker: `_process` turns what the executor raises into a
      failure, and so an error of the outcome's transition, committed or not; process_once
      releases the task after any other error; an enqueue removes its marker. */
  function FaultWorker(worker: Worker): Worker {
    match worker
    case Requeuing(todo, AtDrop) => Requeuing(todo, AtUndo)
    case Requeuing(todo, AtPush) => Requeuing(todo, AtUndo)
    case Looking(id) => Releasing(id, false)
    case CancelSeen(id) => Releasing(id, false)
    case Claiming(id) => Releasing(id, false)
    case Executing(id, Commit(Finish(_, _, _))) => Executing(id, Commit(UNEXPECTED))
    case Executing(id, Commit(_)) => Releasing(id, false)
    case Executing(id, Body(n, _)) => Executing(id, NodeFailed(n, UNEXPECTED))
    case Executing(id, Tool(n, _, _)) => Executing(id, NodeFailed(n, UNEXPECTED))
    case Executing(id, Exit(n, _)) => Executing(id, NodeFailed(n, UNEXPECTED))
    case Executing(id, _) => Executing(id, Commit(UNEXPECTED))
    case _ => Idle
  }

  // ---- callers ----

  function NextCaller(s: Sys, caller: Caller): Caller {
    match caller
    case Finished => Finished
    case Cancelling(_) => Finished
    case Clearing(id) => Enqueuing(id, AtMarker)
    case Enqueuing(id, AtMarker) => if Live(s.redis.markers, id, s.now) then Finished else Enqueuing(id, AtDrop)
    case Enqueuing(id, AtDrop) => Enqueuing(id, AtPush)
    case Enqueuing(_, _) => Finished
  }

  function CallerCommand(caller: Caller): Option<Command> {
    match caller
    case Finished => None
    case Cancelling(id) => Some(SetCancel(id))
    case Clearing(id) => Some(ClearCancel(id))
    case Enqueuing(id, at) => Some(EnqueueCommand(id, at))
  }

  function FaultCaller(caller: Caller): Caller {
    match caller
    case Clearing(id) => Enqueuing(id, AtMarker)
    case Enqueuing(id, AtDrop) => Enqueuing(id, AtUndo)
    case Enqueuing(id, AtPush) => Enqueuing(id, AtUndo)
    case _ => Finished
  }

  // ---- steps and runs ----

  /** The transaction an action commits on an existing task. */
  function DbOp(s: Sys, a: Action): Option<(Id, Op)> {
    match a
    case CancelTask(id) => if id in s.tasks then Some((id, Op.Cancel)) else None
    case RetryTask(id) => if id in s.tasks then Some((id, Retry)) else None
    case Clarify(id, seen) =>
      if id in s.tasks && MessageCommits(s, id, seen) then Some((id, SubmitClarification)) else None
    case CancelOn(k, id) => if id in s.tasks then Some((id, SessionCancel(Known(s, k, id)))) else None
    case ClarifyOn(k, id, seen) =>
      if id in s.tasks && MessageCommits(s, id, seen) then Some((id, SessionClarify(Known(s, k, id)))) else None
    case Work(w, c) => if w < |s.workers| then WorkerOp(s, s.workers[w], c) else None
    case Fault(w, c, applied) => if w < |s.workers| && applied then WorkerOp(s, s.workers[w], c) else None
    case _ => None
  }

  function TasksAfter(s: Sys, a: Action): map<Id, Task> {
    if a.Create? then
      if Creates(s, a) then
        s.tasks[a.id := NewTask(a.conversation, a.clientMsg, |s.messages|, SeqNo(s, a.conversation, a.seen))]
      else s.tasks
    else
      match DbOp(s, a)
      case Some((id, op)) => if id in s.tasks then s.tasks[id := Apply(op, s.tasks[id], s.now)] else s.tasks
      case None => s.tasks
  }

  function MessagesAfter(s: Sys, a: Action): Messages {
    if a.Create? then
      if Creates(s, a) then Numbering.After(s.messages, MessageInsert(a.conversation, a.seen, Some(a.clientMsg)))
      else s.messages
    else
      match DbOp(s, a)
      case None => s.messages
      case Some((id, op)) =>
        if id !in s.tasks || !Accepts(op, s.tasks[id]) then s.messages
        else if a.Clarify? || a.ClarifyOn? then
          Numbering.After(s.messages, MessageInsert(s.tasks[id].conversation, a.seen, None))
        else if op.Persist? && (a.Work? || a.Fault?) then
          Numbering.After(s.messages, MessageInsert(s.tasks[id].conversation, a.choice.seen, None))
        else s.messages
  }

  function RedisCommand(s: Sys, a: Action): Option<Command> {
    match a
    case CallerStep(i) => if i < |s.callers| then CallerCommand(s.callers[i]) else None
    case CallerFault(i, applied) => if i < |s.callers| && applied then CallerCommand(s.callers[i]) else None
    case Work(w, c) => if w < |s.workers| then WorkerCommand(s.workers[w], c) else None
    case Fault(w, c, applied) => if w < |s.workers| && applied then WorkerCommand(s.workers[w], c) else None
    case LapseCancel(id) => Some(ClearCancel(id))
    case _ => None
  }

  function RedisAfter(s: Sys, a: Action): Redis {
    match RedisCommand(s, a)
    case Some(cmd) => Do(cmd, s.redis, s.now, s.cfg.markerTtl)
    case None => s.redis
  }

  function WorkersAfter(s: Sys, a: Action): seq<Worker> {
    match a
    case Work(w, c) => if w < |s.workers| then s.workers[w := NextWorker(s, s.workers[w], c)] else s.workers
    case Fault(w, _, _) => if w < |s.workers| then s.workers[w := FaultWorker(s.workers[w])] else s.workers
    case Crash(w) => if w < |s.workers| then s.workers[w := Idle] else s.workers
    case _ => s.workers
  }

  /** The API call a committed transaction leaves behind. */
  function NewCaller(s: Sys, a: Action): seq<Caller> {
    match a
    case Create(id, conversation, clientMsg, _) =>
      if Creates(s, a) then [Enqueuing(id, AtMarker)]
      else if id in s.tasks && Existing(s, conversation, clientMsg, id) && s.tasks[id].status == Queued then
        [Enqueuing(id, AtMarker)]
      else []
    case CancelTask(id) => if id in s.tasks && Accepts(Op.Cancel, s.tasks[id]) then [Cancelling(id)] else []
    case RetryTask(id) => if id in s.tasks && Accepts(Retry, s.tasks[id]) then [Clearing(id)] else []
    case Clarify(id, seen) =>
      if id in s.tasks && MessageCommits(s, id, seen) && Accepts(SubmitClarification, s.tasks[id]) then [Clearing(id)]
      else []
    case CancelOn(k, id) => if id in s.tasks && Cancellable(Known(s, k, id)) then [Cancelling(id)] else []
    case ClarifyOn(k, id, seen) =>
      if id in s.tasks && MessageCommits(s, id, seen) && Known(s, k, id).status == WaitingInput then [Clearing(id)]
      else []
    case ResendOn(k, id) =>
      if id in s.tasks && Known(s, k, id).status == Queued then [Enqueuing(id, AtMarker)] else []
    case _ => []
  }

  function CallersAfter(s: Sys, a: Action): seq<Caller> {
    match a
    case CallerStep(i) => if i < |s.callers| then s.callers[i := NextCaller(s, s.callers[i])] else s.callers
    case CallerFault(i, _) => if i < |s.callers| then s.callers[i := FaultCaller(s.callers[i])] else s.callers
    case CallerCrash(i) => if i < |s.callers| then s.callers[i := Finished] else s.callers
    case _ => s.callers + NewCaller(s, a)
  }

  /** After a commit a session keeps the values it assigned; a refusal rolls it back. */
  function HeldAfter(s: Sys, a: Action): map<(nat, Id), Task> {
    match a
    case Load(k, id) => if id in s.tasks then s.held[(k, id) := Known(s, k, id)] else s.held
    case ResendOn(k, id) => if id in s.tasks then s.held[(k, id) := Known(s, k, id)] else s.held
    case Forget(k, id) => s.held - {(k, id)}
    case CancelOn(k, id) =>
      if id in s.tasks && Cancellable(Known(s, k, id)) then s.held[(k, id) := CancelledRow(Known(s, k, id), s.now)]
      else s.held - {(k, id)}
    case ClarifyOn(k, id, seen) =>
      if id in s.tasks && MessageCommits(s, id, seen) && Known(s, k, id).status == WaitingInput then
        s.held[(k, id) := ClarifiedRow(Known(s, k, id))]
      else s.held - {(k, id)}
    case _ => s.held
  }

  function Step(s: Sys, a: Action): Sys {
    Sys(s.cfg, TasksAfter(s, a), if a.Create? && Creates(s, a) then s.created + [a.id] else s.created,
        MessagesAfter(s, a), RedisAfter(s, a), CallersAfter(s, a), WorkersAfter(s, a), HeldAfter(s, a),
        if a.Tick? then s.now + 1 else s.now)
  }

  function Init(cfg: Config, n: nat): Sys {
    Sys(cfg, map[], [], [], Redis([], [], map[], {}), [], seq(n, _ => Idle), map[], 0)
  }

  /** The state after `acts`, from `s`. */
  function Steps(s: Sys, acts: seq<Action>): Sys {
    if acts == [] then s else Step(Steps(s, acts[..|acts| - 1]), acts[|acts| - 1])
  }

  /** The state a system of n workers is in after `acts`. */
  function Run(cfg: Config, n: nat, acts: seq<Action>): Sys { Steps(Init(cfg, n), acts) }
}
