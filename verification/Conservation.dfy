/** Counting over whole runs: what enters the queue leaves it through a claim or a
    cancellation, and the counters a row keeps are the counts of what happened. */
module Conservation {
  import opened Basics
  import opened TaskRecord
  import opened TaskQueue
  import opened Graph
  import opened Protocol
  import opened Lifecycle

  datatype Kind =
    | EntersQueue | Claimed | CancelledInQueue | ExecutorStart | TurnsTerminal | EndedAgain | RetryAccepted | Rebuilt

  /** What an action does to one task. */
  predicate Happens(kind: Kind, s: Sys, a: Action, id: Id) {
    var s' := Step(s, a);
    match kind
    case EntersQueue => !HasStatus(s, id, Queued) && HasStatus(s', id, Queued)
    case Claimed => HasStatus(s, id, Queued) && HasStatus(s', id, Running)
    case CancelledInQueue => HasStatus(s, id, Queued) && HasStatus(s', id, Cancelled)
    case ExecutorStart => a.Work? && a.w < |s.workers| && !s.workers[a.w].Executing?
        && s'.workers[a.w] == Executing(id, PreCheck)
    case TurnsTerminal =>
      id in s'.tasks && Terminal(s'.tasks[id].status) && !HasStatus(s, id, s'.tasks[id].status)
    case EndedAgain => Commits(s, a, id) && EndsAgain(DbOp(s, a).value.1, s.tasks[id])
    case RetryAccepted => a == RetryTask(id) && HasStatus(s, id, Failed)
    case Rebuilt => DbOp(s, a) == Some((id, ReportRetry))
  }

  function Count(kind: Kind, cfg: Config, n: nat, acts: seq<Action>, id: Id): nat {
    if acts == [] then 0
    else
      var init := acts[..|acts| - 1];
      Count(kind, cfg, n, init, id) + if Happens(kind, Run(cfg, n, init), acts[|acts| - 1], id) then 1 else 0
  }

  lemma QueuedByOp(op: Op, t: Task, now: nat)
    requires t.status == Queued
    ensures var t' := Apply(op, t, now); t'.status == Queued || t'.status == Running || t'.status == Cancelled
  {
  }

  /** Leaving the queue is a claim or a cancellation. */
  lemma QueueStep(s: Sys, a: Action, id: Id)
    ensures HasStatus(s, id, Queued) && !HasStatus(Step(s, a), id, Queued) ==>
              Happens(Claimed, s, a, id) || Happens(CancelledInQueue, s, a, id)
  {
    if HasStatus(s, id, Queued) {
      RowAfter(s, a, id);
      if Commits(s, a, id) { QueuedByOp(DbOp(s, a).value.1, s.tasks[id], s.now); }
    }
  }

  lemma StartClaims(s: Sys, a: Action, id: Id)
    ensures Happens(ExecutorStart, s, a, id) ==> Happens(Claimed, s, a, id)
  {
  }

  /** Entries into the queue are conserved, for any number of workers, duplicate deliveries
      and lapsed markers: each one was claimed, was cancelled there, or is still queued.
      So executors never start more often than a task was queued. */
  lemma {:induction false} QueueEntriesConserved(cfg: Config, n: nat, acts: seq<Action>, id: Id)
    ensures Count(EntersQueue, cfg, n, acts, id) ==
            Count(Claimed, cfg, n, acts, id) + Count(CancelledInQueue, cfg, n, acts, id)
            + if HasStatus(Run(cfg, n, acts), id, Queued) then 1 else 0
    ensures Count(ExecutorStart, cfg, n, acts, id) <= Count(Claimed, cfg, n, acts, id)
              <= Count(EntersQueue, cfg, n, acts, id)
  {
    if acts != [] {
      QueueEntriesConserved(cfg, n, acts[..|acts| - 1], id);
      QueueStep(Run(cfg, n, acts[..|acts| - 1]), acts[|acts| - 1], id);
      StartClaims(Run(cfg, n, acts[..|acts| - 1]), acts[|acts| - 1], id);
    }
  }

  lemma NewTaskNotDone(conversation: nat, clientMsg: string, messageId: nat, seqNo: nat)
    ensures CountDone(NewTask(conversation, clientMsg, messageId, seqNo).log) == 0
  {
    var log := NewTask(conversation, clientMsg, messageId, seqNo).log;
    assert log == [log[0]] + [log[1]];
    CountDoneConcat([log[0]], [log[1]]);
    CountOne(log[0]); CountOne(log[1]);
  }

  function DoneIn(s: Sys, id: Id): nat { if id in s.tasks then CountDone(s.tasks[id].log) else 0 }

  lemma DoneByOp(s: Sys, a: Action, id: Id)
    requires Commits(s, a, id)
    ensures DoneIn(Step(s, a), id) == DoneIn(s, id)
              + One(Happens(TurnsTerminal, s, a, id)) + One(Happens(EndedAgain, s, a, id))
  {
    RowAfter(s, a, id);
    DoneMarksEnd(DbOp(s, a).value.1, s.tasks[id], s.now);
    EndsOnce(DbOp(s, a).value.1, s.tasks[id], s.now);
    TerminalByOp(s, a, id);
  }

  lemma TerminalByOp(s: Sys, a: Action, id: Id)
    requires Commits(s, a, id)
    ensures var t, t' := s.tasks[id], Apply(DbOp(s, a).value.1, s.tasks[id], s.now);
      Happens(TurnsTerminal, s, a, id) <==> t'.status != t.status && Terminal(t'.status)
  {
    RowAfter(s, a, id);
  }

  /** Ending a cancelled task again leaves it cancelled. */
  lemma EndsOnce(op: Op, t: Task, now: nat)
    ensures EndsAgain(op, t) ==> Apply(op, t, now).status == t.status
  {
  }

  lemma DoneStep(s: Sys, a: Action, id: Id)
    ensures DoneIn(Step(s, a), id) == DoneIn(s, id)
              + One(Happens(TurnsTerminal, s, a, id)) + One(Happens(EndedAgain, s, a, id))
  {
    if Commits(s, a, id) {
      DoneByOp(s, a, id);
    } else if id in s.tasks {
      RowAfter(s, a, id);
    } else if id in Step(s, a).tasks {
      RowCreated(s, a, id);
      NewTaskNotDone(a.conversation, a.clientMsg, |s.messages|, SeqNo(s, a.conversation, a.seen));
    }
  }

  lemma RetryOp(op: Op, t: Task, now: nat)
    requires op.Transition? ==> op.target != Queued
    ensures Apply(op, t, now).retryCount ==
            t.retryCount + if op.ReportRetry? || (op.Retry? && t.status == Failed) then 1 else 0
  {
  }

  lemma NoTransitionToQueued(s: Sys, a: Action)
    requires PhasesOk(s) && DbOp(s, a).Some? && DbOp(s, a).value.1.Transition?
    ensures DbOp(s, a).value.1.target != Queued
  {
  }

  function RetriesIn(s: Sys, id: Id): nat { if id in s.tasks then s.tasks[id].retryCount else 0 }

  lemma RetryByOp(s: Sys, a: Action, id: Id)
    requires PhasesOk(s) && Commits(s, a, id)
    ensures RetriesIn(Step(s, a), id) == RetriesIn(s, id)
              + One(DbOp(s, a).value.1 == Retry && s.tasks[id].status == Failed)
              + One(DbOp(s, a).value.1 == ReportRetry)
  {
    RowAfter(s, a, id);
    if DbOp(s, a).value.1.Transition? { NoTransitionToQueued(s, a); }
    RetryOp(DbOp(s, a).value.1, s.tasks[id], s.now);
  }

  lemma RetryKinds(s: Sys, a: Action, id: Id)
    ensures Happens(RetryAccepted, s, a, id) <==>
            Commits(s, a, id) && DbOp(s, a).value.1 == Retry && s.tasks[id].status == Failed
    ensures Happens(Rebuilt, s, a, id) && id in s.tasks <==> Commits(s, a, id) && DbOp(s, a).value.1 == ReportRetry
  {
  }

  lemma RetryStep(s: Sys, a: Action, id: Id)
    requires PhasesOk(s)
    ensures RetriesIn(Step(s, a), id) == RetriesIn(s, id)
              + One(Happens(RetryAccepted, s, a, id)) + One(Happens(Rebuilt, s, a, id))
  {
    RetryKinds(s, a, id);
    if Commits(s, a, id) {
      RetryByOp(s, a, id);
    } else if id in s.tasks {
      RowAfter(s, a, id);
    } else if id in Step(s, a).tasks {
      RowCreated(s, a, id);
    }
  }

  lemma {:induction false} DoneIsCounted(cfg: Config, n: nat, acts: seq<Action>, id: Id)
    ensures DoneIn(Run(cfg, n, acts), id) ==
            Count(TurnsTerminal, cfg, n, acts, id) + Count(EndedAgain, cfg, n, acts, id)
  {
    if acts != [] {
      DoneIsCounted(cfg, n, acts[..|acts| - 1], id);
      DoneStep(Run(cfg, n, acts[..|acts| - 1]), acts[|acts| - 1], id);
    }
  }

  lemma {:induction false} RetriesAreCounted(cfg: Config, n: nat, acts: seq<Action>, id: Id)
    ensures RetriesIn(Run(cfg, n, acts), id) ==
            Count(RetryAccepted, cfg, n, acts, id) + Count(Rebuilt, cfg, n, acts, id)
  {
    if acts != [] {
      var init := acts[..|acts| - 1];
      RetriesAreCounted(cfg, n, init, id);
      ReachablePhases(cfg, n, init);
      RetryStep(Run(cfg, n, init), acts[|acts| - 1], id);
    }
  }

  /** A task's `done` events count its entries into a terminal status, plus the times that a
      connection ended it again when it was cancelled; and its retry_count the accepted
      retries plus the report rebuilds. */
  lemma CountersAreCounts(cfg: Config, n: nat, acts: seq<Action>, id: Id)
    requires id in Run(cfg, n, acts).tasks
    ensures var t := Run(cfg, n, acts).tasks[id];
      && CountDone(t.log) == Count(TurnsTerminal, cfg, n, acts, id) + Count(EndedAgain, cfg, n, acts, id)
      && t.retryCount == Count(RetryAccepted, cfg, n, acts, id) + Count(Rebuilt, cfg, n, acts, id)
  {
    DoneIsCounted(cfg, n, acts, id);
    RetriesAreCounted(cfg, n, acts, id);
  }
}
