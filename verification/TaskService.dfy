/** The transactions of TaskService, AgentEventEmitter and StageFiveResultService in the
    form the code has them: assignments to the locked row, then appended events. */
module TaskService {
  import opened Basics
  import opened Schema
  import opened TaskRecord

  datatype Outcome = Committed | Refused | RaisedError

  class TaskRow {
    const conversation: nat
    const clientMsg: string
    var status: TaskStatus
    var currentStep: Option<string>
    var retryCount: nat
    var cancelRequested: bool
    var startedAt: Option<nat>
    var finishedAt: Option<nat>
    var errorCode: Option<string>
    var events: seq<Event>
    var results: seq<Json>
    var files: nat

    function View(): Task
      reads this
    {
      Task(conversation, clientMsg, status, currentStep, retryCount, cancelRequested, startedAt, finishedAt,
           errorCode, events, results, files)
    }

    /** create_from_message's insert. */
    constructor (conversation: nat, clientMsg: string, messageId: nat, seqNo: nat)
      ensures View() == NewTask(conversation, clientMsg, messageId, seqNo)
    {
      this.conversation, this.clientMsg := conversation, clientMsg;
      status, currentStep := Queued, Some("queued");
      retryCount, cancelRequested := 0, false;
      startedAt, finishedAt, errorCode := None, None, None;
      results, files := [], 0;
      events := [MessageStart(messageId, Some(clientMsg), seqNo), StatusChange(Queued, Some("queued"), None)];
    }

    method AppendMany(specs: seq<Event>)
      modifies this`events
      ensures events == old(events) + specs
    {
      events := events + specs;
    }

    /** The assignments of an accepted transition. */
    method Assign(target: TaskStatus, step: Option<string>, error: Option<string>, question: Option<string>, now: nat)
      modifies this
      ensures View() == Updated(Op.Transition(target, step, error, question), old(View()), now)
    {
      var source := status;
      status := target;
      currentStep := step;
      if target == Queued {
        finishedAt := None;
        cancelRequested := false;
        errorCode := None;
        if source == Failed { retryCount := retryCount + 1; }
      }
      if target == Running && startedAt == None { startedAt := Some(now); }
      if Terminal(target) { finishedAt := Some(now); }
      if target == Failed || Given(error) {
        errorCode := Some(if Given(error) then error.value else "INTERNAL_ERROR");
      }
    }

    method Transition(target: TaskStatus, step: Option<string>, error: Option<string>, question: Option<string>,
                      now: nat)
      returns (outcome: Outcome)
      modifies this
      ensures View() == Apply(Op.Transition(target, step, error, question), old(View()), now)
      ensures outcome == if target !in Allowed(old(status)) then Refused
                         else if target == Success && !HasCompleteResult(old(View())) then RaisedError
                         else Committed
      ensures outcome != Committed ==> View() == old(View())
      ensures outcome == Committed ==>
                && status == target && currentStep == step
                && old(events) + [StatusChange(target, step, None)] <= events
                && (Terminal(target) ==> events[|events| - 1] == Done(target))
    {
      if target !in Allowed(status) { return Refused; }
      if target == Success && !(results != [] && files > 0) { return RaisedError; }
      Assign(target, step, error, question, now);
      var specs := [StatusChange(target, step, None)];
      if Given(errorCode) && Terminal(target) { specs := specs + [ErrorRaised(errorCode.value)]; }
      if target == WaitingInput && Given(question) { specs := specs + [ClarificationRequired(question.value)]; }
      if Terminal(target) { specs := specs + [Done(target)]; }
      AppendMany(specs);
      outcome := Committed;
    }

    method Cancel(now: nat) returns (accepted: bool)
      modifies this
      ensures View() == Apply(Op.Cancel, old(View()), now)
      ensures accepted <==> old(status) == Queued || old(status) == Running || old(status) == WaitingInput
      ensures accepted && old(status) == Running ==>
                status == Running && currentStep == old(currentStep)
                && events == old(events) + [StatusChange(Running, currentStep, None)]
      ensures accepted && old(status) != Running ==>
                status == Cancelled && currentStep == None && finishedAt == Some(now)
                && events == old(events) + [StatusChange(Cancelled, None, None), Done(Cancelled)]
      ensures accepted ==> cancelRequested
    {
      if status !in {Queued, Running, WaitingInput} { return false; }
      cancelRequested := true;
      if status in {Queued, WaitingInput} {
        status := Cancelled;
        currentStep := None;
        finishedAt := Some(now);
        AppendMany([StatusChange(Cancelled, None, None), Done(Cancelled)]);
      } else {
        AppendMany([StatusChange(Running, currentStep, None)]);
      }
      accepted := true;
    }

    method SubmitClarification() returns (accepted: bool)
      modifies this
      ensures View() == Apply(Op.SubmitClarification, old(View()), 0)
      ensures accepted <==> old(status) == WaitingInput
      ensures accepted ==>
                status == Queued && currentStep == Some("resume") && !cancelRequested
                && events == old(events) + [StatusChange(Queued, Some("resume"), None)]
    {
      if status != WaitingInput { return false; }
      status := Queued;
      currentStep := Some("resume");
      cancelRequested := false;
      finishedAt := None;
      AppendMany([StatusChange(Queued, Some("resume"), None)]);
      accepted := true;
    }

    method Retry() returns (accepted: bool)
      modifies this
      ensures View() == Apply(Op.Retry, old(View()), 0) && (accepted <==> old(status) == Failed)
      ensures accepted ==>
                status == Queued && currentStep == Some("retry") && retryCount == old(retryCount) + 1
                && !cancelRequested && errorCode == None
                && events == old(events) + [StatusChange(Queued, Some("retry"), None)]
    {
      if status != Failed { return false; }
      status := Queued;
      currentStep := Some("retry");
      retryCount := retryCount + 1;
      cancelRequested := false;
      finishedAt := None;
      errorCode := None;
      AppendMany([StatusChange(Queued, Some("retry"), None)]);
      accepted := true;
    }

    method EmitNode(name: string, state: string)
      modifies this
      ensures View() == Apply(Op.EmitNode(name, state), old(View()), 0)
      ensures currentStep == if old(status) == Running then Some(name) else old(currentStep)
      ensures events == old(events) + [StatusChange(Running, Some(name), Some(Mark(name, state)))]
    {
      if status == Running { currentStep := Some(name); }
      AppendMany([StatusChange(Running, Some(name), Some(Mark(name, state)))]);
    }

    method EmitTool(name: string, tool: Mark)
      modifies this
      ensures View() == Apply(Op.EmitTool(name, tool), old(View()), 0)
      ensures events == old(events) + [ToolEvent(name, tool)]
    {
      AppendMany([ToolEvent(name, tool)]);
    }

    method ReportRetry()
      modifies this
      ensures View() == Apply(Op.ReportRetry, old(View()), 0)
      ensures retryCount == old(retryCount) + 1
      ensures events == old(events) + [StatusChange(Running, Some("build_report_ir"), None)]
    {
      retryCount := retryCount + 1;
      AppendMany([StatusChange(Running, Some("build_report_ir"), None)]);
    }

    /** StageFiveResultService.persist under the row lock: the first result stays. */
    method Persist(report: Json, newFiles: nat, messageId: nat, seqNo: nat, summary: string) returns (inserted: bool)
      modifies this
      ensures View() == Apply(Op.Persist(report, newFiles, messageId, seqNo, summary), old(View()), 0)
      ensures inserted <==> old(results) == []
      ensures inserted ==>
                results == [report] && files == old(files) + newFiles
                && events == old(events)
                   + [MessageStart(messageId, None, seqNo), MessageDelta(messageId, seqNo, summary), ResultReady]
    {
      if results != [] { return false; }
      results := results + [report];
      for i := 0 to newFiles
        invariant files == old(files) + i && results == old(results) + [report]
        invariant View() == old(View()).(results := results, files := files)
      {
        files := files + 1;
      }
      AppendMany([MessageStart(messageId, None, seqNo), MessageDelta(messageId, seqNo, summary), ResultReady]);
      inserted := true;
    }
  }
  /** A task object in a session: the attributes, and the row they were loaded from.  A later
      SELECT of the row, locked or not, does not refresh it. */
  class LoadedTask {
    var loaded: Task
    var status: TaskStatus
    var currentStep: Option<string>
    var cancelRequested: bool
    var finishedAt: Option<nat>

    function View(): Task
      reads this
    {
      loaded.(status := status, step := currentStep, cancelRequested := cancelRequested, finishedAt := finishedAt)
    }

    constructor (row: TaskRow)
      ensures View() == loaded == row.View()
    {
      loaded := row.View();
      status, currentStep, cancelRequested, finishedAt :=
        row.status, row.currentStep, row.cancelRequested, row.finishedAt;
    }

    /** The UPDATE names the attributes that differ from the loaded ones. */
    method Flush(row: TaskRow)
      modifies row
      ensures row.View() == Written(loaded, View(), old(row.View()))
    {
      if status != loaded.status { row.status := status; }
      if currentStep != loaded.step { row.currentStep := currentStep; }
      if cancelRequested != loaded.cancelRequested { row.cancelRequested := cancelRequested; }
      if finishedAt != loaded.finishedAt { row.finishedAt := finishedAt; }
    }

    /** The object keeps its values over the commit. */
    method Commit(row: TaskRow, events: seq<Event>)
      modifies this`loaded, row
      ensures View() == loaded == old(View())
      ensures var stored := Written(old(loaded), old(View()), old(row.View()));
        row.View() == stored.(log := stored.log + events)
    {
      Flush(row);
      row.AppendMany(events);
      loaded := View();
    }

    /** cancel in a session that has loaded the task before. */
    method Cancel(row: TaskRow, now: nat) returns (accepted: bool)
      requires View() == loaded
      modifies this, row
      ensures accepted == Cancellable(old(loaded))
      ensures row.View() == Apply(SessionCancel(old(loaded)), old(row.View()), now)
      ensures View() == loaded == if accepted then CancelledRow(old(loaded), now) else old(loaded)
    {
      if status !in {Queued, Running, WaitingInput} { return false; }
      var events;
      cancelRequested := true;
      if status in {Queued, WaitingInput} {
        status := Cancelled;
        currentStep := None;
        finishedAt := Some(now);
        events := [StatusChange(Cancelled, None, None), Done(Cancelled)];
      } else {
        events := [StatusChange(Running, currentStep, None)];
      }
      assert View() == CancelledRow(loaded, now);
      Commit(row, events);
      accepted := true;
    }

    /** submit_clarification in a session that has loaded the task before. */
    method SubmitClarification(row: TaskRow) returns (accepted: bool)
      requires View() == loaded
      modifies this, row
      ensures accepted == (old(status) == WaitingInput)
      ensures row.View() == Apply(SessionClarify(old(loaded)), old(row.View()), 0)
      ensures View() == loaded == if accepted then ClarifiedRow(old(loaded)) else old(loaded)
    {
      if status != WaitingInput { return false; }
      status := Queued;
      currentStep := Some("resume");
      cancelRequested := false;
      finishedAt := None;
      assert View() == ClarifiedRow(loaded);
      Commit(row, [StatusChange(Queued, Some("resume"), None)]);
      accepted := true;
    }
  }
}
