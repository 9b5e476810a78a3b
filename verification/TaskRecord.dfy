/** One row of analysis_tasks with its event log and results, and the transactions that
    change it under the row lock. */
module TaskRecord {
  import opened Basics
  import opened Schema

  datatype TaskStatus = Queued | Running | WaitingInput | Success | Failed | Cancelled

  predicate Terminal(s: TaskStatus) { s == Success || s == Failed || s == Cancelled }

  /** ALLOWED_TRANSITIONS */
  function Allowed(s: TaskStatus): set<TaskStatus> {
    match s
    case Queued => {Running, Cancelled}
    case Running => {WaitingInput, Success, Failed, Cancelled}
    case WaitingInput => {Queued, Cancelled}
    case Failed => {Queued}
    case Success => {}
    case Cancelled => {}
  }

  datatype Mark = Mark(name: string, state: string)

  /** A task event's type and the payload fields that are read back. */
  datatype Event =
    | MessageStart(messageId: nat, clientMsg: Option<string>, seqNo: nat)
    | MessageDelta(messageId: nat, seqNo: nat, text: string)
    | StatusChange(status: TaskStatus, step: Option<string>, mark: Option<Mark>)   // type task_status
    | ToolEvent(node: string, tool: Mark)                                      // tool_start, tool_finish
    | ClarificationRequired(question: string)
    | ResultReady
    | ErrorRaised(code: string)
    | Done(status: TaskStatus)

  datatype Task = Task(
    conversation: nat,
    clientMsg: string,
    status: TaskStatus,
    step: Option<string>,
    retryCount: nat,
    cancelRequested: bool,
    startedAt: Option<nat>,
    finishedAt: Option<nat>,
    errorCode: Option<string>,
    log: seq<Event>,
    results: seq<Json>,
    files: nat)

  function NewTask(conversation: nat, clientMsg: string, messageId: nat, seqNo: nat): Task {
    Task(conversation, clientMsg, Queued, Some("queued"), 0, false, None, None, None,
         [MessageStart(messageId, Some(clientMsg), seqNo), StatusChange(Queued, Some("queued"), None)], [], 0)
  }

  /** The transactions: six of them write the status.  A session that has loaded the row
      before acts on what it holds of it, not on the row it locks. */
  datatype Op =
    | Transition(target: TaskStatus, step: Option<string>, error: Option<string>, question: Option<string>)
    | Cancel
    | SubmitClarification
    | Retry
    | SessionCancel(held: Task)
    | SessionClarify(held: Task)
    | EmitNode(name: string, state: string)
    | EmitTool(name: string, tool: Mark)
    | ReportRetry
    | Persist(report: Json, newFiles: nat, messageId: nat, seqNo: nat, summary: string)

  predicate HasCompleteResult(t: Task) { t.results != [] && t.files > 0 }

  /** `transition` raises instead of committing. */
  predicate LacksResult(t: Task, target: TaskStatus) {
    target in Allowed(t.status) && target == Success && !HasCompleteResult(t)
  }

  predicate Cancellable(t: Task) { t.status == Queued || t.status == Running || t.status == WaitingInput }

  /** Whether the transaction goes through; otherwise the row is left as it is. */
  predicate Accepts(op: Op, t: Task) {
    match op
    case Transition(target, _, _, _) => target in Allowed(t.status) && !LacksResult(t, target)
    case Cancel => Cancellable(t)
    case SubmitClarification => t.status == WaitingInput
    case Retry => t.status == Failed
    case SessionCancel(held) => Cancellable(held)
    case SessionClarify(held) => held.status == WaitingInput
    case Persist(_, _, _, _, _) => t.results == []
    case _ => true
  }

  /** An argument that is neither None nor the empty text. */
  predicate Given(text: Option<string>) { text.Some? && text.value != "" }

  function When(b: bool, event: Event): seq<Event> { if b then [event] else [] }

  /** The columns as cancel and submit_clarification assign them. */
  function CancelledRow(t: Task, now: nat): Task {
    if t.status == Running then t.(cancelRequested := true)
    else t.(cancelRequested := true, status := Cancelled, step := None, finishedAt := Some(now))
  }

  function ClarifiedRow(t: Task): Task {
    t.(status := Queued, step := Some("resume"), cancelRequested := false, finishedAt := None)
  }

  /** The UPDATE of a session: the columns whose value differs from the one it held. */
  function Written(held: Task, changed: Task, t: Task): Task {
    t.(status := if changed.status != held.status then changed.status else t.status,
       step := if changed.step != held.step then changed.step else t.step,
       cancelRequested := if changed.cancelRequested != held.cancelRequested then changed.cancelRequested
                          else t.cancelRequested,
       finishedAt := if changed.finishedAt != held.finishedAt then changed.finishedAt else t.finishedAt)
  }

  /** The row after an accepted transaction at time `now`, its log apart. */
  function Updated(op: Op, t: Task, now: nat): Task {
    match op
    case Transition(target, step, error, question) =>
      t.(retryCount := if target == Queued && t.status == Failed then t.retryCount + 1 else t.retryCount,
         status := target,
         step := step,
         cancelRequested := if target == Queued then false else t.cancelRequested,
         startedAt := if target == Running && t.startedAt.None? then Some(now) else t.startedAt,
         finishedAt := if Terminal(target) then Some(now) else if target == Queued then None else t.finishedAt,
         errorCode :=
           if target == Failed || Given(error) then Some(if Given(error) then error.value else "INTERNAL_ERROR")
           else if target == Queued then None
           else t.errorCode)
    case Cancel => CancelledRow(t, now)
    case SubmitClarification => ClarifiedRow(t)
    case SessionCancel(held) => Written(held, CancelledRow(held, now), t)
    case SessionClarify(held) => Written(held, ClarifiedRow(held), t)
    case Retry =>
      t.(status := Queued, step := Some("retry"), retryCount := t.retryCount + 1, cancelRequested := false,
         finishedAt := None, errorCode := None)
    case EmitNode(name, _) => if t.status == Running then t.(step := Some(name)) else t
    case EmitTool(_, _) => t
    case ReportRetry => t.(retryCount := t.retryCount + 1)
    case Persist(report, newFiles, _, _, _) => t.(results := t.results + [report], files := t.files + newFiles)
  }

  function CancelEvents(t: Task): seq<Event> {
    if t.status == Running then [StatusChange(Running, t.step, None)]
    else [StatusChange(Cancelled, None, None)] + [Done(Cancelled)]
  }

  /** The events an accepted transaction appends, given the row before and after it. */
  function Events(op: Op, was: Task, t: Task): seq<Event> {
    match op
    case Transition(target, step, _, question) =>
      [StatusChange(target, step, None)]
      + When(Given(t.errorCode) && Terminal(target), ErrorRaised(t.errorCode.GetOr("")))
      + When(target == WaitingInput && Given(question), ClarificationRequired(question.GetOr("")))
      + When(Terminal(target), Done(target))
    case Cancel => CancelEvents(was)
    case SubmitClarification => [StatusChange(Queued, Some("resume"), None)]
    case SessionCancel(held) => CancelEvents(held)
    case SessionClarify(_) => [StatusChange(Queued, Some("resume"), None)]
    case Retry => [StatusChange(Queued, t.step, None)]
    case EmitNode(name, state) => [StatusChange(Running, Some(name), Some(Mark(name, state)))]
    case EmitTool(name, tool) => [ToolEvent(name, tool)]
    case ReportRetry => [StatusChange(Running, Some("build_report_ir"), None)]
    case Persist(_, _, messageId, seqNo, summary) =>
      [MessageStart(messageId, None, seqNo)] + [MessageDelta(messageId, seqNo, summary)] + [ResultReady]
  }

  /** One transaction; a refused one changes nothing. */
  function Apply(op: Op, t: Task, now: nat): Task {
    if !Accepts(op, t) then t
    else
      var t' := Updated(op, t, now);
      t'.(log := t.log + Events(op, t, t'))
  }

  // ---- what every transaction keeps ----

  /** A session ends the task by what it holds: for it the task is queued or waiting. */
  predicate EndsHeld(op: Op) { op.SessionCancel? && (op.held.status == Queued || op.held.status == WaitingInput) }

  predicate RequeuesHeld(op: Op) { op.SessionClarify? && op.held.status == WaitingInput }

  /** A session takes a task out of a status that is not left that way. */
  predicate Leaps(op: Op, t: Task) {
    || (EndsHeld(op) && (t.status == Success || t.status == Failed))
    || (RequeuesHeld(op) && (t.status == Running || t.status == Success || t.status == Cancelled))
  }

  /** A status change is an allowed transition exactly unless a session overrides a status it
      does not hold. */
  lemma StatusFollowsAllowedIff(op: Op, t: Task, now: nat)
    ensures var t' := Apply(op, t, now);
      (t'.status == t.status || t'.status in Allowed(t.status)) <==> !Leaps(op, t)
  {
  }

  /** What a session holds is what is stored, in the columns it assigns. */
  predicate Current(held: Task, t: Task) {
    && held.status == t.status && held.step == t.step
    && held.cancelRequested == t.cancelRequested && held.finishedAt == t.finishedAt
  }

  /** A session whose row is current cancels and answers like one that loads the row. */
  lemma CurrentActsPlainly(held: Task, t: Task, now: nat)
    requires Current(held, t)
    ensures Apply(SessionCancel(held), t, now) == Apply(Cancel, t, now)
    ensures Apply(SessionClarify(held), t, now) == Apply(SubmitClarification, t, now)
  {
  }

  function CountDone(log: seq<Event>): nat {
    if log == [] then 0 else CountDone(log[..|log| - 1]) + if log[|log| - 1].Done? then 1 else 0
  }

  /** A failed row has an error, and a row at most one result, which is valid and has files;
      a successful one has it.  `valid` is report validity. */
  ghost predicate Sound(t: Task, valid: Json -> bool) {
    && (t.status == Failed ==> t.errorCode.Some?)
    && |t.results| <= 1
    && (t.results != [] ==> valid(t.results[0]) && t.files > 0)
    && (t.status == Success ==> t.results != [])
  }

  /** The other columns fit the status. */
  predicate Fits(t: Task) {
    && (t.finishedAt.Some? <==> Terminal(t.status))
    && (t.errorCode.Some? ==> t.status == Failed || t.status == Cancelled)
    && (t.status == Queued ==> !t.cancelRequested)
  }

  /** What the callers pass: an error code only with a terminal failure or cancellation,
      and a persisted report only after it validated, with its files. */
  ghost predicate Proper(op: Op, valid: Json -> bool) {
    && (op.Transition? && op.error.Some? ==> op.target == Failed || op.target == Cancelled)
    && (op.Persist? ==> valid(op.report) && op.newFiles > 0)
  }

  lemma SoundKept(op: Op, t: Task, now: nat, valid: Json -> bool)
    requires Sound(t, valid) && Proper(op, valid)
    ensures Sound(Apply(op, t, now), valid)
  {
  }

  /** A session leaves behind columns that do not fit: it flags a queued row, requeues a
      finished one, or requeues one without clearing a request it does not hold. */
  predicate Misfits(op: Op, t: Task) {
    || (op.SessionCancel? && op.held.status == Running && !op.held.cancelRequested && t.status == Queued)
    || (RequeuesHeld(op) && (Terminal(t.status) || (t.cancelRequested && !op.held.cancelRequested)))
  }

  /** What a session holds of an unfinished task has no finishing time. */
  predicate HeldFits(held: Task) { held.finishedAt.Some? ==> Terminal(held.status) }

  lemma FitsKeptIff(op: Op, t: Task, now: nat, valid: Json -> bool)
    requires Fits(t) && Proper(op, valid) && (op.SessionCancel? || op.SessionClarify? ==> HeldFits(op.held))
    ensures Fits(Apply(op, t, now)) <==> !Misfits(op, t)
  {
  }

  lemma {:induction false} CountDoneConcat(a: seq<Event>, b: seq<Event>)
    ensures CountDone(a + b) == CountDone(a) + CountDone(b)
  {
    if b == [] {
      assert a + b == a;
    } else {
      CountDoneConcat(a, b[..|b| - 1]);
      assert (a + b)[..|a + b| - 1] == a + b[..|b| - 1];
    }
  }

  lemma CountOne(event: Event)
    ensures CountDone([event]) == if event.Done? then 1 else 0
    ensures StatusFold([event]) == Says(event)
  {
  }

  /** Appending one more event, or none. */
  lemma AppendWhen(log: seq<Event>, b: bool, event: Event)
    ensures CountDone(log + When(b, event)) == CountDone(log) + if b && event.Done? then 1 else 0
    ensures StatusFold(log + When(b, event)) == if b && Says(event).Some? then Says(event) else StatusFold(log)
  {
    CountDoneConcat(log, When(b, event));
    FoldAppend(log, When(b, event));
    CountOne(event);
  }

  /** What a transaction's events amount to: how many `done`, and the status they tell. */
  predicate Tells(events: seq<Event>, done: nat, status: Option<TaskStatus>) {
    CountDone(events) == done && StatusFold(events) == status
  }

  lemma TransitionTells(target: TaskStatus, step: Option<string>, failed: bool, code: string, asked: bool,
                        question: string)
    requires asked ==> target == WaitingInput
    ensures Tells([StatusChange(target, step, None)] + When(failed, ErrorRaised(code))
                  + When(asked, ClarificationRequired(question)) + When(Terminal(target), Done(target)),
                  if Terminal(target) then 1 else 0, Some(target))
  {
    var first := [StatusChange(target, step, None)];
    CountOne(first[0]);
    AppendWhen(first, failed, ErrorRaised(code));
    var second := first + When(failed, ErrorRaised(code));
    AppendWhen(second, asked, ClarificationRequired(question));
    AppendWhen(second + When(asked, ClarificationRequired(question)), Terminal(target), Done(target));
  }

  lemma CancelTells(t: Task)
    ensures Tells(CancelEvents(t), if t.status == Running then 0 else 1,
                  Some(if t.status == Running then Running else Cancelled))
  {
    if t.status == Running {
      CountOne(StatusChange(Running, t.step, None));
    } else {
      var first := [StatusChange(Cancelled, None, None)];
      CountOne(first[0]);
      AppendWhen(first, true, Done(Cancelled));
    }
  }

  lemma PersistTells(start: Event, delta: Event)
    requires start.MessageStart? && delta.MessageDelta?
    ensures Tells([start] + [delta] + [ResultReady], 0, None)
  {
    CountOne(start);
    AppendWhen([start], true, delta);
    AppendWhen([start] + [delta], true, ResultReady);
  }

  function Told(op: Op, t': Task): Option<TaskStatus> {
    if ReportsRunning(op) then Some(Running)
    else if op.EmitTool? || op.Persist? then None
    else Some(t'.status)
  }

  /** The transaction ends the task, or a session ends a cancelled one again. */
  predicate Ends(op: Op, t: Task, t': Task) {
    (t'.status != t.status && Terminal(t'.status)) || EndsAgain(op, t)
  }

  predicate EndsAgain(op: Op, t: Task) { EndsHeld(op) && t.status == Cancelled }

  lemma TransitionEffect(op: Op, t: Task, now: nat)
    requires Accepts(op, t) && op.Transition?
    ensures var t' := Updated(op, t, now);
      Tells(Events(op, t, t'), if Ends(op, t, t') then 1 else 0, Told(op, t'))
  {
    var t' := Updated(op, t, now);
    TransitionTells(op.target, op.step, Given(t'.errorCode) && Terminal(op.target), t'.errorCode.GetOr(""),
                    op.target == WaitingInput && Given(op.question), op.question.GetOr(""));
  }

  lemma EventsEffect(op: Op, t: Task, now: nat)
    requires Accepts(op, t)
    ensures var t' := Updated(op, t, now);
      Tells(Events(op, t, t'), if Ends(op, t, t') then 1 else 0, Told(op, t'))
  {
    var t' := Updated(op, t, now);
    match op
    case Transition(_, _, _, _) => TransitionEffect(op, t, now);
    case Cancel => CancelTells(t);
    case SessionCancel(held) => CancelTells(held);
    case Persist(_, _, messageId, seqNo, summary) =>
      PersistTells(MessageStart(messageId, None, seqNo), MessageDelta(messageId, seqNo, summary));
    case _ => CountOne(Events(op, t, t')[0]);
  }

  /** started_at is the time of the first start and stays. */
  lemma StartedOnce(op: Op, t: Task, now: nat)
    ensures var t' := Apply(op, t, now);
      && (t.startedAt.Some? ==> t'.startedAt == t.startedAt)
      && (t'.startedAt != t.startedAt ==> t'.startedAt == Some(now) && t'.status == Running && t.status != Running)
  {
  }

  /** finished_at is the time of the entry into the terminal status and stays while the status
      does, exactly unless a session ends a cancelled task again at another time. */
  lemma FinishedOnceIff(op: Op, t: Task, now: nat)
    requires op.SessionCancel? || op.SessionClarify? ==> HeldFits(op.held)
    ensures var t' := Apply(op, t, now);
      && (t'.status != t.status && Terminal(t'.status) ==> t'.finishedAt == Some(now))
      && ((t'.status == t.status ==> t'.finishedAt == t.finishedAt) <==>
          !(EndsAgain(op, t) && t.finishedAt != Some(now)))
  {
  }

  /** A `done` event is appended exactly when the status becomes terminal, or a session ends
      a cancelled task again. */
  lemma DoneMarksEnd(op: Op, t: Task, now: nat)
    ensures var t' := Apply(op, t, now);
      CountDone(t'.log) == CountDone(t.log) + if Ends(op, t, t') then 1 else 0
  {
    if Accepts(op, t) {
      EventsEffect(op, t, now);
      CountDoneConcat(t.log, Events(op, t, Updated(op, t, now)));
    }
  }

  // ---- which events a transaction appends ----

  /** The events that a transaction appends to a log. */
  function Added(before: seq<Event>, after: seq<Event>): seq<Event>
    requires |before| <= |after|
  {
    after[|before|..]
  }

  lemma LogGrows(op: Op, t: Task, now: nat)
    ensures t.log <= Apply(op, t, now).log
    ensures Added(t.log, Apply(op, t, now).log) == if Accepts(op, t) then Events(op, t, Updated(op, t, now)) else []
  {
  }

  lemma WhenIn(b: bool, event: Event, x: Event)
    ensures x in When(b, event) <==> b && x == event
  {
  }

  /** The events of a transition, by kind. */
  lemma TransitionEventsIn(op: Op, t: Task, t': Task, x: Event)
    requires op.Transition?
    ensures x in Events(op, t, t') <==>
      || x == StatusChange(op.target, op.step, None)
      || (Given(t'.errorCode) && Terminal(op.target) && x == ErrorRaised(t'.errorCode.value))
      || (op.target == WaitingInput && Given(op.question) && x == ClarificationRequired(op.question.value))
      || (Terminal(op.target) && x == Done(op.target))
  {
    WhenIn(Given(t'.errorCode) && Terminal(op.target), ErrorRaised(t'.errorCode.GetOr("")), x);
    WhenIn(op.target == WaitingInput && Given(op.question), ClarificationRequired(op.question.GetOr("")), x);
    WhenIn(Terminal(op.target), Done(op.target), x);
  }

  lemma OtherEventsIn(op: Op, t: Task, t': Task, x: Event)
    requires !op.Transition? && (x.ClarificationRequired? || x.ErrorRaised?)
    ensures x !in Events(op, t, t')
  {
  }

  lemma QuestionInEvents(op: Op, t: Task, t': Task, question: string)
    ensures ClarificationRequired(question) in Events(op, t, t') <==>
      op.Transition? && op.target == WaitingInput && op.question == Some(question) && question != ""
  {
    if op.Transition? {
      TransitionEventsIn(op, t, t', ClarificationRequired(question));
    } else {
      OtherEventsIn(op, t, t', ClarificationRequired(question));
    }
  }

  lemma ErrorInEvents(op: Op, t: Task, t': Task, code: string)
    ensures ErrorRaised(code) in Events(op, t, t') <==>
      op.Transition? && Terminal(op.target) && t'.errorCode == Some(code) && code != ""
  {
    if op.Transition? {
      TransitionEventsIn(op, t, t', ErrorRaised(code));
    } else {
      OtherEventsIn(op, t, t', ErrorRaised(code));
    }
  }

  lemma WaitsFromRunning(op: Op, t: Task)
    requires op.Transition? && op.target == WaitingInput
    ensures Accepts(op, t) <==> t.status == Running
  {
  }

  /** What is among the added events. */
  lemma AddedIff(op: Op, t: Task, now: nat, x: Event)
    ensures var t' := Apply(op, t, now);
      |t.log| <= |t'.log| && (x in Added(t.log, t'.log) <==> Accepts(op, t) && x in Events(op, t, Updated(op, t, now)))
  {
    LogGrows(op, t, now);
  }

  /** A question is asked exactly by an accepted transition to waiting_input that has one;
      the event carries its text. */
  lemma QuestionAskedIff(op: Op, t: Task, now: nat, question: string)
    ensures var t' := Apply(op, t, now);
      |t.log| <= |t'.log| &&
      (ClarificationRequired(question) in Added(t.log, t'.log) <==>
       op.Transition? && op.target == WaitingInput && t.status == Running
       && op.question == Some(question) && question != "")
  {
    AddedIff(op, t, now, ClarificationRequired(question));
    QuestionInEvents(op, t, Updated(op, t, now), question);
    if op.Transition? && op.target == WaitingInput { WaitsFromRunning(op, t); }
  }

  /** The error code of a row after a transaction: the given one, INTERNAL_ERROR for a failure
      without one, none in the queue by transition or retry, and otherwise unchanged. */
  lemma ErrorCodeIs(op: Op, t: Task, now: nat)
    ensures var t' := Apply(op, t, now);
      t'.errorCode ==
      if op.Transition? && op.target in Allowed(t.status) && !LacksResult(t, op.target) then
        if op.error.Some? && op.error.value != "" then op.error
        else if op.target == Failed then Some("INTERNAL_ERROR")
        else if op.target == Queued then None
        else t.errorCode
      else if op.Retry? && t.status == Failed then None
      else t.errorCode
  {
  }

  /** An accepted transition always changes the status. */
  lemma TransitionLands(op: Op, t: Task, now: nat)
    requires op.Transition?
    ensures Accepts(op, t) <==> Apply(op, t, now).status == op.target != t.status
    ensures Accepts(op, t) ==> Apply(op, t, now).errorCode == Updated(op, t, now).errorCode
  {
  }

  /** An error is raised exactly by a transition that ends the task with an error code; the
      event carries the code of the row. */
  lemma ErrorRaisedIff(op: Op, t: Task, now: nat, code: string)
    ensures var t' := Apply(op, t, now);
      |t.log| <= |t'.log| &&
      (ErrorRaised(code) in Added(t.log, t'.log) <==>
       op.Transition? && t'.status == op.target != t.status && Terminal(t'.status)
       && t'.errorCode == Some(code) && code != "")
  {
    AddedIff(op, t, now, ErrorRaised(code));
    ErrorInEvents(op, t, Updated(op, t, now), code);
    if op.Transition? { TransitionLands(op, t, now); }
  }

  /** A result is announced exactly when one was added; its message is started before, with
      the summary as its text. */
  lemma ResultReadyIff(op: Op, t: Task, now: nat)
    ensures var t' := Apply(op, t, now);
      |t.log| <= |t'.log| &&
      (ResultReady in Added(t.log, t'.log) <==> |t'.results| == |t.results| + 1) &&
      (|t'.results| == |t.results| + 1 ==>
         op.Persist? && t'.results == t.results + [op.report] && t'.files == t.files + op.newFiles
         && Added(t.log, t'.log) ==
            [MessageStart(op.messageId, None, op.seqNo), MessageDelta(op.messageId, op.seqNo, op.summary), ResultReady])
  {
    LogGrows(op, t, now);
    var t' := Updated(op, t, now);
    if op.Transition? && Accepts(op, t) { TransitionEventsIn(op, t, t', ResultReady); }
  }

  // ---- the log and the row agree ----

  /** The status an event tells, if it tells one. */
  function Says(event: Event): Option<TaskStatus> {
    match event
    case StatusChange(status, _, _) => Some(status)
    case ClarificationRequired(_) => Some(WaitingInput)
    case Done(status) => Some(status)
    case _ => None
  }

  /** The status a client arrives at by applying the log in order. */
  function StatusFold(log: seq<Event>): Option<TaskStatus> {
    if log == [] then None
    else if Says(log[|log| - 1]).Some? then Says(log[|log| - 1])
    else StatusFold(log[..|log| - 1])
  }

  predicate Agrees(t: Task) { StatusFold(t.log) == Some(t.status) }

  /** The transactions whose event says that the task is running: an executor's reports, and
      the cancel of a session for which it is running. */
  predicate ReportsRunning(op: Op) {
    op.EmitNode? || op.ReportRetry? || (op.SessionCancel? && op.held.status == Running)
  }

  lemma {:induction false} FoldAppend(log: seq<Event>, added: seq<Event>)
    ensures StatusFold(log + added) == if StatusFold(added).Some? then StatusFold(added) else StatusFold(log)
  {
    if added == [] {
      assert log + added == log;
    } else {
      FoldAppend(log, added[..|added| - 1]);
      assert (log + added)[..|log + added| - 1] == log + added[..|added| - 1];
    }
  }

  /** A transaction keeps log and row in agreement exactly unless it reports a row running
      that is not: the test _persist makes before it writes current_step. */
  lemma AgreementKeptIff(op: Op, t: Task, now: nat)
    requires Agrees(t)
    ensures Agrees(Apply(op, t, now)) <==> !(ReportsRunning(op) && t.status != Running)
  {
    if Accepts(op, t) {
      EventsEffect(op, t, now);
      FoldAppend(t.log, Events(op, t, Updated(op, t, now)));
    }
  }
}
