/** What every run of the protocol keeps, for any number of workers and callers, any
    interleaving, duplicate deliveries, lapsed markers, errors and crashes. */
module Lifecycle {
  import opened Basics
  import opened Schema
  import opened TaskRecord
  import opened TaskQueue
  import opened Graph
  import opened Protocol
  import Numbering

  ghost function ValidReport(v: Validator): Json -> bool { r => v.validate(r) == Some(r) }

  // ---- rows, results and numbers ----

  ghost predicate RowsSound(s: Sys) {
    forall id :: id in s.tasks ==> Sound(s.tasks[id], ValidReport(s.cfg.validator))
  }

  lemma PersistableValid(cfg: Config, g: GraphState)
    requires Projects(cfg.validator) && Persistable(cfg, g).Some?
    ensures ValidReport(cfg.validator)(Persistable(cfg, g).value)
    ensures g.report.Some? && Items(At(g.report.value, GeneratedFiles)) != []
  {
  }

  lemma PhaseOpProper(s: Sys, id: Id, p: Phase, c: Choice)
    requires Projects(s.cfg.validator) && id in s.tasks && PhaseOp(s, id, p, c).Some?
    ensures Proper(PhaseOp(s, id, p, c).value, ValidReport(s.cfg.validator))
  {
    if p.Persisting? { PersistableValid(s.cfg, p.g); }
  }

  lemma DbOpProper(s: Sys, a: Action)
    requires Projects(s.cfg.validator) && DbOp(s, a).Some?
    ensures Proper(DbOp(s, a).value.1, ValidReport(s.cfg.validator))
  {
    if (a.Work? || a.Fault?) && s.workers[a.w].Executing? {
      PhaseOpProper(s, s.workers[a.w].id, s.workers[a.w].phase, a.choice);
    }
  }

  /** The action commits a transaction on the task. */
  predicate Commits(s: Sys, a: Action, id: Id) {
    DbOp(s, a).Some? && DbOp(s, a).value.0 == id && id in s.tasks
  }

  /** What an action leaves of one row. */
  lemma RowAfter(s: Sys, a: Action, id: Id)
    requires id in s.tasks
    ensures id in Step(s, a).tasks
    ensures Step(s, a).tasks[id] ==
            if Commits(s, a, id) then Apply(DbOp(s, a).value.1, s.tasks[id], s.now) else s.tasks[id]
  {
  }

  /** A row that was not there is a new task's. */
  lemma RowCreated(s: Sys, a: Action, id: Id)
    requires id !in s.tasks && id in Step(s, a).tasks
    ensures a.Create? && a.id == id
    ensures Step(s, a).tasks[id] ==
            NewTask(a.conversation, a.clientMsg, |s.messages|, SeqNo(s, a.conversation, a.seen))
  {
  }

  lemma RowsStep(s: Sys, a: Action)
    requires Projects(s.cfg.validator) && RowsSound(s)
    ensures RowsSound(Step(s, a))
  {
    var valid := ValidReport(s.cfg.validator);
    forall id | id in Step(s, a).tasks ensures Sound(Step(s, a).tasks[id], valid) {
      if id in s.tasks {
        RowAfter(s, a, id);
        if DbOp(s, a).Some? {
          DbOpProper(s, a);
          SoundKept(DbOp(s, a).value.1, s.tasks[id], s.now, valid);
        }
      } else {
        RowCreated(s, a, id);
      }
    }
  }

  lemma ResultsByOp(op: Op, t: Task, now: nat)
    ensures t.results != [] ==> Apply(op, t, now).results == t.results
  {
  }

  /** A stored result is never changed or dropped by a later step. */
  lemma ResultsStep(s: Sys, a: Action, id: Id)
    requires id in s.tasks
    ensures id in Step(s, a).tasks
    ensures s.tasks[id].results != [] ==> Step(s, a).tasks[id].results == s.tasks[id].results
  {
    RowAfter(s, a, id);
    if Commits(s, a, id) { ResultsByOp(DbOp(s, a).value.1, s.tasks[id], s.now); }
  }

  /** At most one task, and one message, per client message of a conversation. */
  ghost predicate ClientMsgsUnique(s: Sys) {
    && (forall id, id', conversation, clientMsg ::
          Existing(s, conversation, clientMsg, id) && Existing(s, conversation, clientMsg, id') ==> id == id')
    && (forall i, j | 0 <= i < j < |s.messages| && s.messages[i].key == s.messages[j].key ::
          s.messages[i].payload.Some? ==> s.messages[i].payload != s.messages[j].payload)
  }

  lemma IdentityByOp(op: Op, t: Task, now: nat)
    ensures Apply(op, t, now).conversation == t.conversation && Apply(op, t, now).clientMsg == t.clientMsg
  {
  }

  lemma IdentityKept(s: Sys, a: Action, id: Id)
    requires id in s.tasks
    ensures id in Step(s, a).tasks
    ensures Step(s, a).tasks[id].conversation == s.tasks[id].conversation
    ensures Step(s, a).tasks[id].clientMsg == s.tasks[id].clientMsg
  {
    RowAfter(s, a, id);
    if Commits(s, a, id) { IdentityByOp(DbOp(s, a).value.1, s.tasks[id], s.now); }
  }

  lemma ClientMsgsStep(s: Sys, a: Action)
    requires ClientMsgsUnique(s)
    ensures ClientMsgsUnique(Step(s, a))
  {
    var s' := Step(s, a);
    forall id, id', conversation, clientMsg |
      Existing(s', conversation, clientMsg, id) && Existing(s', conversation, clientMsg, id')
      ensures id == id'
    {
      if id in s.tasks { IdentityKept(s, a, id); assert Existing(s, conversation, clientMsg, id); }
      if id' in s.tasks { IdentityKept(s, a, id'); assert Existing(s, conversation, clientMsg, id'); }
    }
  }

  /** A message sent to a conversation with a queued or running task adds nothing. */
  lemma NoSecondActive(s: Sys, a: Action, id: Id)
    requires a.Create? && id in s.tasks && s.tasks[id].conversation == a.conversation
    requires s.tasks[id].status == Queued || s.tasks[id].status == Running
    ensures Step(s, a).tasks == s.tasks && Step(s, a).messages == s.messages && Step(s, a).created == s.created
  {
    assert Active(s, a.conversation);
  }

  /** A message adds a task exactly when its conversation has neither a task for it nor an
      active one, and its number is fresh; the task is queued, with its two events. */
  lemma CreatesIff(s: Sys, a: Action)
    requires a.Create? && a.id !in s.tasks && ClientMsgFree(s.messages, a.conversation, a.clientMsg)
    ensures var t := Step(s, a);
      (a.id in t.tasks <==>
       && (forall id :: id in s.tasks && s.tasks[id].conversation == a.conversation ==>
             s.tasks[id].clientMsg != a.clientMsg && s.tasks[id].status != Queued && s.tasks[id].status != Running)
       && Numbering.Commits(s.messages, MessageInsert(a.conversation, a.seen, Some(a.clientMsg))))
    ensures var t := Step(s, a);
      a.id in t.tasks ==>
        && t.tasks[a.id].status == Queued && |t.tasks[a.id].log| == 2 && t.tasks[a.id].results == []
        && (forall id :: id in s.tasks ==> id in t.tasks && t.tasks[id] == s.tasks[id])
        && t.callers == s.callers + [Enqueuing(a.id, AtMarker)]
  {
  }

  lemma NumbersStep(s: Sys, a: Action)
    requires Numbering.Contiguous(s.messages)
    ensures Numbering.Contiguous(Step(s, a).messages)
  {
    if Step(s, a).messages != s.messages {
      if a.Create? {
        Numbering.InsertKeepsContiguous(s.messages, MessageInsert(a.conversation, a.seen, Some(a.clientMsg)));
      } else {
        var (id, op) := DbOp(s, a).value;
        Numbering.InsertKeepsContiguous(s.messages, MessageInsert(s.tasks[id].conversation,
          if a.Clarify? || a.ClarifyOn? then a.seen else a.choice.seen, None));
      }
    }
  }

  lemma {:induction false} CfgKept(s: Sys, acts: seq<Action>)
    ensures Steps(s, acts).cfg == s.cfg && |Steps(s, acts).workers| == |s.workers|
  {
    if acts != [] { CfgKept(s, acts[..|acts| - 1]); }
  }

  lemma StepsLast(s: Sys, all: seq<Action>, init: seq<Action>, a: Action)
    requires all == init + [a]
    ensures Steps(s, all) == Step(Steps(s, init), a)
  {
    assert all[..|all| - 1] == init;
  }

  /** `runs` applies `step` to one action after the other. */
  ghost predicate Iterates<S, A>(runs: (S, seq<A>) -> S, step: (S, A) -> S, s: S, acts: seq<A>) {
    runs(s, acts) == if acts == [] then s else step(runs(s, acts[..|acts| - 1]), acts[|acts| - 1])
  }

  lemma {:induction false} IterateOn<S(!new), A(!new)>(runs: (S, seq<A>) -> S, step: (S, A) -> S,
                                                       s: S, acts: seq<A>, more: seq<A>)
    requires forall s, acts :: Iterates(runs, step, s, acts)
    ensures runs(s, acts + more) == runs(runs(s, acts), more)
  {
    assert Iterates(runs, step, s, acts + more) && Iterates(runs, step, runs(s, acts), more);
    if more == [] {
      assert acts + more == acts;
    } else {
      IterateOn(runs, step, s, acts, more[..|more| - 1]);
      assert (acts + more)[..|acts + more| - 1] == acts + more[..|more| - 1];
    }
  }

  lemma StepsIterate()
    ensures forall s, acts :: Iterates(Steps, Step, s, acts)
  {
  }

  lemma RunSnoc(cfg: Config, n: nat, acts: seq<Action>, a: Action)
    ensures Run(cfg, n, acts + [a]) == Step(Run(cfg, n, acts), a)
  {
    StepsLast(Init(cfg, n), acts + [a], acts, a);
  }

  lemma RunConcat(cfg: Config, n: nat, acts: seq<Action>, more: seq<Action>)
    ensures Run(cfg, n, acts + more) == Steps(Run(cfg, n, acts), more)
  {
    StepsIterate();
    IterateOn(Steps, Step, Init(cfg, n), acts, more);
  }

  /** In every reachable state the columns of each row fit its status; each task has at most
      one result, which validates and has files; a successful task has it; client messages
      are unique; and the message numbers of each conversation are exactly 1..n. */
  lemma {:induction false} ReachableRows(cfg: Config, n: nat, acts: seq<Action>)
    requires Projects(cfg.validator)
    ensures var s := Run(cfg, n, acts);
      RowsSound(s) && ClientMsgsUnique(s) && Numbering.Contiguous(s.messages)
  {
    if acts != [] {
      var s, a := Run(cfg, n, acts[..|acts| - 1]), acts[|acts| - 1];
      ReachableRows(cfg, n, acts[..|acts| - 1]);
      CfgKept(Init(cfg, n), acts[..|acts| - 1]);
      RowsStep(s, a);
      ClientMsgsStep(s, a);
      NumbersStep(s, a);
    }
  }

  lemma {:induction false} IdentityStays(s: Sys, acts: seq<Action>, id: Id)
    requires id in s.tasks
    ensures var t := Steps(s, acts);
      id in t.tasks && t.tasks[id].conversation == s.tasks[id].conversation
      && t.tasks[id].clientMsg == s.tasks[id].clientMsg
  {
    if acts != [] {
      IdentityStays(s, acts[..|acts| - 1], id);
      IdentityKept(Steps(s, acts[..|acts| - 1]), acts[|acts| - 1], id);
    }
  }

  predicate IsMessage(s: Sys, i: nat, conversation: nat, clientMsg: string) {
    i < |s.messages| && s.messages[i].key == conversation && s.messages[i].payload == Some(clientMsg)
  }

  ghost predicate HasMessage(s: Sys, conversation: nat, clientMsg: string) {
    exists i :: IsMessage(s, i, conversation, clientMsg)
  }

  /** Messages are only ever added. */
  lemma MessageStays(s: Sys, a: Action, conversation: nat, clientMsg: string)
    requires HasMessage(s, conversation, clientMsg)
    ensures HasMessage(Step(s, a), conversation, clientMsg)
  {
    var i :| IsMessage(s, i, conversation, clientMsg);
    assert s.messages <= Step(s, a).messages;
    assert IsMessage(Step(s, a), i, conversation, clientMsg);
  }

  lemma {:induction false} TaskHasMessage(cfg: Config, n: nat, acts: seq<Action>, id: Id)
    ensures var s := Run(cfg, n, acts);
      id in s.tasks ==> HasMessage(s, s.tasks[id].conversation, s.tasks[id].clientMsg)
  {
    if acts != [] {
      var s, a := Run(cfg, n, acts[..|acts| - 1]), acts[|acts| - 1];
      TaskHasMessage(cfg, n, acts[..|acts| - 1], id);
      if id in s.tasks {
        IdentityKept(s, a, id);
        MessageStays(s, a, s.tasks[id].conversation, s.tasks[id].clientMsg);
      } else if id in Step(s, a).tasks {
        RowCreated(s, a, id);
        assert IsMessage(Step(s, a), |s.messages|, a.conversation, a.clientMsg);
      }
    }
  }

  /** The client message has one task, this one, and one message. */
  ghost predicate OnlyOne(t: Sys, id: Id, conversation: nat, clientMsg: string) {
    && Existing(t, conversation, clientMsg, id)
    && (forall other :: Existing(t, conversation, clientMsg, other) ==> other == id)
    && HasMessage(t, conversation, clientMsg)
    && (forall i, j :: IsMessage(t, i, conversation, clientMsg) && IsMessage(t, j, conversation, clientMsg) ==> i == j)
  }

  lemma UniqueIsOnlyOne(t: Sys, id: Id, conversation: nat, clientMsg: string)
    requires ClientMsgsUnique(t) && Existing(t, conversation, clientMsg, id) && HasMessage(t, conversation, clientMsg)
    ensures OnlyOne(t, id, conversation, clientMsg)
  {
  }

  /** However often a client message is sent again in whatever run: it has the one task it
      got first, and one message. */
  lemma ClientMessageOnce(cfg: Config, n: nat, acts: seq<Action>, more: seq<Action>,
                          id: Id, conversation: nat, clientMsg: string)
    requires Projects(cfg.validator) && Existing(Run(cfg, n, acts), conversation, clientMsg, id)
    ensures OnlyOne(Run(cfg, n, acts + more), id, conversation, clientMsg)
  {
    var t := Run(cfg, n, acts + more);
    assert Existing(t, conversation, clientMsg, id) by {
      RunConcat(cfg, n, acts, more);
      IdentityStays(Run(cfg, n, acts), more, id);
    }
    TaskHasMessage(cfg, n, acts + more, id);
    assert ClientMsgsUnique(t) by { ReachableRows(cfg, n, acts + more); }
    UniqueIsOnlyOne(t, id, conversation, clientMsg);
  }

  /** Once stored, a result outlives every retry, cancellation and repeated persist. */
  lemma {:induction false} ResultsStable(s: Sys, acts: seq<Action>, id: Id)
    requires id in s.tasks
    ensures id in Steps(s, acts).tasks
    ensures s.tasks[id].results != [] ==> Steps(s, acts).tasks[id].results == s.tasks[id].results
  {
    if acts != [] {
      ResultsStable(s, acts[..|acts| - 1], id);
      ResultsStep(Steps(s, acts[..|acts| - 1]), acts[|acts| - 1], id);
    }
  }

  // ---- mishaps ----

  /** The failure is about to be committed: nothing else of the execution is left. */
  predicate Failing(p: Phase) { p.Commit? && p.ending.Fail? }

  /** Worker w executes the task and is not just committing a failure. */
  predicate Runs(s: Sys, w: nat, id: Id) {
    w < |s.workers| && s.workers[w].Executing? && s.workers[w].id == id && !Failing(s.workers[w].phase)
  }

  ghost predicate UnderExecutor(s: Sys, id: Id) { exists x: nat :: Runs(s, x, id) }

  predicate ByWorker(s: Sys, a: Action) { (a.Work? || a.Fault?) && a.w < |s.workers| }

  /** What can go wrong with a task:
      Expiry: a recovery pass, or a worker that saw an early cancel, cancels it under its executor;
      LateFailure: a worker fails it under another: its own outcome was committed although the
        commit raised, and the task has been claimed again;
      HeldEnd: a connection for which it is queued or waiting cancels it under its executor;
      HeldRequeue: a connection for which it is waiting requeues it under its executor;
      HeldReport: a connection for which it is running reports so, and it is not;
      LateReport: the same, or an executor's report;
      Leap: a connection takes it out of a status that is not left that way;
      Misfit: a connection leaves columns that do not fit its status;
      Stale: a connection acts on it, and holds another status than the row has. */
  datatype Mishap =
    | Expiry | LateFailure | HeldEnd | HeldRequeue | HeldReport | LateReport | Leap | Misfit | Stale

  ghost predicate Occurs(m: Mishap, s: Sys, a: Action, id: Id) {
    && Commits(s, a, id)
    && var op, t := DbOp(s, a).value.1, s.tasks[id];
       match m
       case Expiry =>
         && ByWorker(s, a) && (s.workers[a.w].Expiring? || s.workers[a.w].CancelSeen?)
         && t.status == Running && UnderExecutor(s, id)
       case LateFailure =>
         && ByWorker(s, a) && s.workers[a.w].Executing? && Failing(s.workers[a.w].phase)
         && t.status == Running && UnderExecutor(s, id)
       case HeldEnd => EndsHeld(op) && t.status == Running && UnderExecutor(s, id)
       case HeldRequeue => RequeuesHeld(op) && UnderExecutor(s, id)
       case HeldReport => op.SessionCancel? && op.held.status == Running && t.status != Running
       case LateReport => ReportsRunning(op) && t.status != Running
       case Leap => Leaps(op, t)
       case Misfit => Misfits(op, t)
       case Stale => HeldBy(op) && Accepts(op, t) && op.held.status != t.status
  }

  predicate HeldBy(op: Op) { op.SessionCancel? || op.SessionClarify? }

  ghost predicate NoneOf(ms: set<Mishap>, s: Sys, a: Action, id: Id) { forall m :: m in ms ==> !Occurs(m, s, a, id) }

  /** None of them occurs in the run. */
  ghost predicate Never(ms: set<Mishap>, cfg: Config, n: nat, acts: seq<Action>, id: Id) {
    acts == [] ||
    (Never(ms, cfg, n, acts[..|acts| - 1], id)
     && NoneOf(ms, Run(cfg, n, acts[..|acts| - 1]), acts[|acts| - 1], id))
  }

  lemma {:induction false} NeverFewer(ms: set<Mishap>, fewer: set<Mishap>, cfg: Config, n: nat, acts: seq<Action>,
                                      id: Id)
    requires Never(ms, cfg, n, acts, id) && fewer <= ms
    ensures Never(fewer, cfg, n, acts, id)
  {
    if acts != [] { NeverFewer(ms, fewer, cfg, n, acts[..|acts| - 1], id); }
  }

  /** A step leaves a task's status or moves it along ALLOWED_TRANSITIONS, exactly unless a
      connection makes it leap; so but for that, success and cancelled absorb. */
  lemma StepFollowsAllowedIff(s: Sys, a: Action, id: Id)
    requires id in s.tasks
    ensures id in Step(s, a).tasks
    ensures var before, after := s.tasks[id].status, Step(s, a).tasks[id].status;
      (before == after || after in Allowed(before)) <==> !Occurs(Leap, s, a, id)
  {
    RowAfter(s, a, id);
    if Commits(s, a, id) { StatusFollowsAllowedIff(DbOp(s, a).value.1, s.tasks[id], s.now); }
  }

  // ---- executors ----

  predicate EndingOk(e: Ending) { e.Finish? ==> e.status == WaitingInput || e.status == Success }

  predicate PhaseOk(p: Phase) {
    (p.NodeFailed? || p.PostCheck? || p.Commit? ==> EndingOk(p.ending)) && (p.NodeFailed? ==> !p.ending.Finish?)
  }

  /** In every phase the ending is one the code gives. */
  predicate PhasesOk(s: Sys) {
    forall w :: 0 <= w < |s.workers| && s.workers[w].Executing? ==> PhaseOk(s.workers[w].phase)
  }

  lemma PhaseKeptOk(s: Sys, id: Id, p: Phase, c: Choice)
    requires PhaseOk(p)
    ensures PhaseOk(NextPhase(s, id, p, c))
  {
  }

  lemma PhasesStep(s: Sys, a: Action)
    requires PhasesOk(s)
    ensures PhasesOk(Step(s, a))
  {
    if a.Work? && a.w < |s.workers| && s.workers[a.w].Executing? {
      PhaseKeptOk(s, s.workers[a.w].id, s.workers[a.w].phase, a.choice);
    }
  }

  lemma {:induction false} ReachablePhases(cfg: Config, n: nat, acts: seq<Action>)
    ensures PhasesOk(Run(cfg, n, acts))
  {
    if acts != [] {
      ReachablePhases(cfg, n, acts[..|acts| - 1]);
      PhasesStep(Run(cfg, n, acts[..|acts| - 1]), acts[|acts| - 1]);
    }
  }

  predicate Owned(s: Sys, id: Id) { HasStatus(s, id, Running) || HasStatus(s, id, Cancelled) }

  /** A task that is executed is running, or was cancelled under its executor, and has one
      executor only. */
  ghost predicate OneExecutor(s: Sys, id: Id) {
    && (forall w: nat :: Runs(s, w, id) ==> Owned(s, id))
    && (forall w: nat, x: nat :: Runs(s, w, id) && Runs(s, x, id) ==> w == x)
  }

  /** An execution goes on, or begins with a claim from the queue. */
  lemma RunsFrom(s: Sys, a: Action, w: nat, id: Id)
    requires Runs(Step(s, a), w, id)
    ensures Runs(s, w, id)
         || (a.Work? && a.w == w && HasStatus(s, id, Queued) && HasStatus(Step(s, a), id, Running))
  {
  }

  /** The executor's own transactions, until it commits its ending. */
  lemma InsideKeepsStatus(s: Sys, id: Id, p: Phase, c: Choice)
    requires id in s.tasks && !p.Commit? && PhaseOp(s, id, p, c).Some?
    ensures Apply(PhaseOp(s, id, p, c).value, s.tasks[id], s.now).status == s.tasks[id].status
  {
  }

  /** The connections' mishaps come from holding another status than the row has. */
  lemma HeldMishapsAreStale(s: Sys, a: Action, id: Id)
    requires OneExecutor(s, id) && NoneOf({Stale}, s, a, id)
    ensures NoneOf({HeldEnd, HeldRequeue, HeldReport, Leap}, s, a, id)
  {
    if Commits(s, a, id) { assert !Occurs(Stale, s, a, id); }
  }

  /** While worker w goes on executing the task, its status changes by mishaps only. */
  lemma StatusUnderExecutor(s: Sys, a: Action, w: nat, id: Id)
    requires PhasesOk(s) && OneExecutor(s, id) && NoneOf({LateFailure, HeldRequeue}, s, a, id)
    requires Runs(s, w, id) && Runs(Step(s, a), w, id)
    ensures Owned(Step(s, a), id)
    ensures HasStatus(s, id, Running) && NoneOf({Expiry, HeldEnd}, s, a, id) ==> HasStatus(Step(s, a), id, Running)
  {
    assert Owned(s, id);
    RowAfter(s, a, id);
    if Commits(s, a, id) {
      assert !Occurs(LateFailure, s, a, id) && !Occurs(HeldRequeue, s, a, id);
      if ByWorker(s, a) && s.workers[a.w].Executing? {
        ExecutorKeepsStatus(s, a, w, id);
      } else {
        OthersKeepOwned(s, a, id);
      }
    }
  }

  lemma ExecutorKeepsStatus(s: Sys, a: Action, w: nat, id: Id)
    requires PhasesOk(s) && OneExecutor(s, id) && !Occurs(LateFailure, s, a, id)
    requires Runs(s, w, id) && Runs(Step(s, a), w, id)
    requires Commits(s, a, id) && ByWorker(s, a) && s.workers[a.w].Executing?
    ensures id in Step(s, a).tasks && Step(s, a).tasks[id].status == s.tasks[id].status
  {
    assert Owned(s, id);
    RowAfter(s, a, id);
    var p := s.workers[a.w].phase;
    if !Failing(p) {
      assert Runs(s, a.w, id) && a.w == w;
      assert !p.Commit?;
      InsideKeepsStatus(s, id, p, a.choice);
    }
  }

  /** Transactions of callers, recovery and connections, by the row they meet. */
  lemma OthersApply(s: Sys, a: Action, id: Id)
    requires Commits(s, a, id) && !(ByWorker(s, a) && s.workers[a.w].Executing?)
    requires s.tasks[id].status == Running || s.tasks[id].status == Cancelled
    ensures var op, t := DbOp(s, a).value.1, s.tasks[id];
      var t' := Apply(op, t, s.now);
      t'.status == t.status || RequeuesHeld(op)
      || (t'.status == Cancelled && (EndsHeld(op) || (ByWorker(s, a) && !s.workers[a.w].Claiming?)))
  {
  }

  /** They leave a running or cancelled task so, but for a connection that requeues it. */
  lemma OthersKeepOwned(s: Sys, a: Action, id: Id)
    requires Owned(s, id) && Commits(s, a, id) && UnderExecutor(s, id)
    requires !(ByWorker(s, a) && s.workers[a.w].Executing?) && !Occurs(HeldRequeue, s, a, id)
    ensures Owned(Step(s, a), id)
    ensures HasStatus(s, id, Running) && NoneOf({Expiry, HeldEnd}, s, a, id) ==> HasStatus(Step(s, a), id, Running)
  {
    RowAfter(s, a, id);
    OthersApply(s, a, id);
    assert NoneOf({Expiry, HeldEnd}, s, a, id) ==> !Occurs(Expiry, s, a, id) && !Occurs(HeldEnd, s, a, id);
  }

  /** The executor whose task it is goes on. */
  lemma MishapSpares(m: Mishap, s: Sys, a: Action, id: Id, x: nat)
    requires m in {Expiry, LateFailure, HeldEnd, HeldRequeue} && Occurs(m, s, a, id) && Runs(s, x, id)
    ensures Runs(Step(s, a), x, id)
  {
  }

  lemma MishapEnds(m: Mishap, s: Sys, a: Action, id: Id)
    requires m in {Expiry, LateFailure, HeldEnd, HeldRequeue} && Occurs(m, s, a, id)
    ensures var t' := Apply(DbOp(s, a).value.1, s.tasks[id], s.now);
      t'.status != Running && (m == LateFailure || m == HeldRequeue ==> t'.status != Cancelled)
  {
  }

  lemma MishapMoves(m: Mishap, s: Sys, a: Action, id: Id)
    requires m in {Expiry, LateFailure, HeldEnd, HeldRequeue} && Occurs(m, s, a, id)
    ensures UnderExecutor(Step(s, a), id) && !HasStatus(Step(s, a), id, Running)
    ensures m == LateFailure || m == HeldRequeue ==> !Owned(Step(s, a), id)
  {
    assert UnderExecutor(Step(s, a), id) by {
      var x: nat :| Runs(s, x, id);
      MishapSpares(m, s, a, id, x);
    }
    MishapEnds(m, s, a, id);
    RowAfter(s, a, id);
  }

  // ---- what an executor reports ----

  function NodeEvent(n: Node, state: string): Event {
    StatusChange(Running, Some(Protocol.Name(n)), Some(Mark(Protocol.Name(n), state)))
  }

  /** The events of an executor's own step, before it persists or commits its outcome. */
  lemma StepEvents(s: Sys, w: nat, c: Choice)
    requires w < |s.workers| && s.workers[w].Executing? && s.workers[w].id in s.tasks
    requires !s.workers[w].phase.Persisting? && !s.workers[w].phase.Commit?
    ensures var id, p := s.workers[w].id, s.workers[w].phase;
      var before, after := s.tasks[id].log, Step(s, Work(w, c)).tasks[id].log;
      |before| <= |after| &&
      Added(before, after) ==
      match p
      case Start(n, _) => [NodeEvent(n, "started")]
      case NodeFinished(n, _) => [NodeEvent(n, "finished")]
      case NodeFailed(n, _) => [NodeEvent(n, "failed")]
      case Rebuild(_, _) => [StatusChange(Running, Some("build_report_ir"), None)]
      case Tool(n, _, EmitStarted) => [ToolEvent(Protocol.Name(n), Mark(c.text, "started"))]
      case Tool(n, _, EmitFinished) =>
        [ToolEvent(Protocol.Name(n), Mark(c.text, if c.raised.Some? then "failed" else "finished"))]
      case _ => []
  {
    var id := s.workers[w].id;
    RowAfter(s, Work(w, c), id);
    if Commits(s, Work(w, c), id) { LogGrows(DbOp(s, Work(w, c)).value.1, s.tasks[id], s.now); }
  }

  /** Committing an outcome on a running task: the question is asked, the failure recorded, the
      stop made. */
  lemma OutcomeCommitted(s: Sys, w: nat, c: Choice, ending: Ending)
    requires w < |s.workers| && s.workers[w].Executing? && s.workers[w].phase == Commit(ending)
    requires HasStatus(s, s.workers[w].id, Running)
    ensures var id := s.workers[w].id;
      var t, t' := s.tasks[id], Step(s, Work(w, c)).tasks[id];
      |t.log| <= |t'.log| &&
      match ending
      case Stop => t'.status == Cancelled
      case Fail(code) => t'.status == Failed && t'.errorCode == Some(if code == "" then "INTERNAL_ERROR" else code)
      case Finish(status, step, question) =>
        status == WaitingInput && Given(question) ==>
          t'.status == WaitingInput && t'.step == step
          && ClarificationRequired(question.value) in Added(t.log, t'.log)
  {
    var id := s.workers[w].id;
    var op := EndingOp(ending);
    RowAfter(s, Work(w, c), id);
    assert DbOp(s, Work(w, c)) == Some((id, op));
    LogGrows(op, s.tasks[id], s.now);
    if ending.Finish? && Given(ending.question) { QuestionAskedIff(op, s.tasks[id], s.now, ending.question.value); }
  }

  // ---- the laws of a task, and what breaks them ----

  predicate RowAgrees(s: Sys, id: Id) { id in s.tasks ==> Agrees(s.tasks[id]) }

  /** A task that is executed is running, and has one executor only. */
  ghost predicate RunningAlone(s: Sys, id: Id) {
    && (forall w: nat :: Runs(s, w, id) ==> HasStatus(s, id, Running))
    && (forall w: nat, x: nat :: Runs(s, w, id) && Runs(s, x, id) ==> w == x)
  }

  predicate RowFits(s: Sys, id: Id) { id in s.tasks ==> Fits(s.tasks[id]) }

  datatype Law = LogAgrees | OwnedByOne | RunByOne | ColumnsFit

  ghost predicate Holds(law: Law, s: Sys, id: Id) {
    match law
    case LogAgrees => RowAgrees(s, id)
    case OwnedByOne => OneExecutor(s, id)
    case RunByOne => RunningAlone(s, id)
    case ColumnsFit => RowFits(s, id)
  }

  function Causes(law: Law): set<Mishap> {
    match law
    case LogAgrees => {LateReport}
    case OwnedByOne => {LateFailure, HeldRequeue}
    case RunByOne => {Expiry, LateFailure, HeldEnd, HeldRequeue}
    case ColumnsFit => {Misfit}
  }

  ghost predicate Always(law: Law, cfg: Config, n: nat, acts: seq<Action>, id: Id) {
    Holds(law, Run(cfg, n, acts), id) && (acts == [] || Always(law, cfg, n, acts[..|acts| - 1], id))
  }

  lemma NewTaskAgrees(conversation: nat, clientMsg: string, messageId: nat, seqNo: nat)
    ensures Agrees(NewTask(conversation, clientMsg, messageId, seqNo))
  {
  }

  lemma AgreementStepIff(s: Sys, a: Action, id: Id)
    requires RowAgrees(s, id)
    ensures RowAgrees(Step(s, a), id) <==> !Occurs(LateReport, s, a, id)
  {
    if id in s.tasks {
      RowAfter(s, a, id);
      if Commits(s, a, id) { AgreementKeptIff(DbOp(s, a).value.1, s.tasks[id], s.now); }
    } else if id in Step(s, a).tasks {
      RowCreated(s, a, id);
      NewTaskAgrees(a.conversation, a.clientMsg, |s.messages|, SeqNo(s, a.conversation, a.seen));
    }
  }

  lemma StaysOwned(s: Sys, a: Action, w: nat, id: Id)
    requires PhasesOk(s) && OneExecutor(s, id) && NoneOf({LateFailure, HeldRequeue}, s, a, id)
    requires Runs(Step(s, a), w, id)
    ensures Owned(Step(s, a), id)
  {
    RunsFrom(s, a, w, id);
    if Runs(s, w, id) { StatusUnderExecutor(s, a, w, id); }
  }

  lemma OneExecutorStepIff(s: Sys, a: Action, id: Id)
    requires PhasesOk(s) && OneExecutor(s, id)
    ensures OneExecutor(Step(s, a), id) <==> NoneOf({LateFailure, HeldRequeue}, s, a, id)
  {
    var s' := Step(s, a);
    if m :| m in {LateFailure, HeldRequeue} && Occurs(m, s, a, id) {
      MishapMoves(m, s, a, id);
    } else {
      forall w: nat | Runs(s', w, id) ensures Owned(s', id) { StaysOwned(s, a, w, id); }
      forall w: nat, x: nat | Runs(s', w, id) && Runs(s', x, id) ensures w == x {
        RunsFrom(s, a, w, id);
        RunsFrom(s, a, x, id);
      }
    }
  }

  lemma RunsOnRunning(s: Sys, a: Action, w: nat, id: Id)
    requires PhasesOk(s) && OneExecutor(s, id) && RunningAlone(s, id) && NoneOf(Causes(RunByOne), s, a, id)
    requires Runs(Step(s, a), w, id)
    ensures HasStatus(Step(s, a), id, Running)
  {
    RunsFrom(s, a, w, id);
    if Runs(s, w, id) {
      assert HasStatus(s, id, Running);
      StatusUnderExecutor(s, a, w, id);
    }
  }

  lemma RunningAloneStepIff(s: Sys, a: Action, id: Id)
    requires PhasesOk(s) && RunningAlone(s, id)
    ensures RunningAlone(Step(s, a), id) <==> NoneOf(Causes(RunByOne), s, a, id)
  {
    if m :| m in Causes(RunByOne) && Occurs(m, s, a, id) {
      MishapMoves(m, s, a, id);
    } else {
      RunsOnAlone(s, a, id);
    }
  }

  lemma RunsOnAlone(s: Sys, a: Action, id: Id)
    requires PhasesOk(s) && RunningAlone(s, id) && NoneOf(Causes(RunByOne), s, a, id)
    ensures RunningAlone(Step(s, a), id)
  {
    assert OneExecutor(s, id);
    OneExecutorStepIff(s, a, id);
    forall w: nat | Runs(Step(s, a), w, id) ensures HasStatus(Step(s, a), id, Running) {
      RunsOnRunning(s, a, w, id);
    }
  }

  /** What connections hold of an unfinished task has no finishing time. */
  ghost predicate AllHeldFit(s: Sys, id: Id) { forall k: nat :: (k, id) in s.held ==> HeldFits(s.held[(k, id)]) }

  lemma HeldStep(s: Sys, a: Action, id: Id)
    requires RowFits(s, id) && AllHeldFit(s, id)
    ensures AllHeldFit(Step(s, a), id)
  {
  }

  lemma FitsStepIff(s: Sys, a: Action, id: Id)
    requires Projects(s.cfg.validator) && RowFits(s, id) && AllHeldFit(s, id)
    ensures RowFits(Step(s, a), id) <==> !Occurs(Misfit, s, a, id)
  {
    if id in s.tasks {
      RowAfter(s, a, id);
      if Commits(s, a, id) {
        DbOpProper(s, a);
        HeldOpFits(s, a, id);
        FitsKeptIff(DbOp(s, a).value.1, s.tasks[id], s.now, ValidReport(s.cfg.validator));
      }
    } else if id in Step(s, a).tasks {
      RowCreated(s, a, id);
    }
  }

  lemma HeldOpFits(s: Sys, a: Action, id: Id)
    requires RowFits(s, id) && AllHeldFit(s, id) && Commits(s, a, id)
    ensures HeldBy(DbOp(s, a).value.1) ==> HeldFits(DbOp(s, a).value.1.held)
  {
  }

  lemma {:induction false} HeldFitAlways(cfg: Config, n: nat, acts: seq<Action>, id: Id)
    requires Projects(cfg.validator) && Always(ColumnsFit, cfg, n, acts, id)
    ensures AllHeldFit(Run(cfg, n, acts), id)
  {
    if acts != [] {
      var init := acts[..|acts| - 1];
      HeldFitAlways(cfg, n, init, id);
      CfgKept(Init(cfg, n), init);
      assert Holds(ColumnsFit, Run(cfg, n, init), id);
      HeldStep(Run(cfg, n, init), acts[|acts| - 1], id);
    }
  }

  lemma LawStepIff(law: Law, cfg: Config, n: nat, acts: seq<Action>, a: Action, id: Id)
    requires Projects(cfg.validator) && Always(law, cfg, n, acts, id)
    ensures Holds(law, Step(Run(cfg, n, acts), a), id) <==> NoneOf(Causes(law), Run(cfg, n, acts), a, id)
  {
    var s := Run(cfg, n, acts);
    ReachablePhases(cfg, n, acts);
    CfgKept(Init(cfg, n), acts);
    match law
    case LogAgrees => AgreementStepIff(s, a, id);
    case OwnedByOne => OneExecutorStepIff(s, a, id);
    case RunByOne => RunningAloneStepIff(s, a, id);
    case ColumnsFit => HeldFitAlways(cfg, n, acts, id); FitsStepIff(s, a, id);
  }

  /** For any number of workers, callers and connections, any run and each task: a law holds
      throughout the run exactly when none of its causes occurs in it. */
  lemma {:induction false} AlwaysIff(law: Law, cfg: Config, n: nat, acts: seq<Action>, id: Id)
    requires Projects(cfg.validator)
    ensures Always(law, cfg, n, acts, id) <==> Never(Causes(law), cfg, n, acts, id)
  {
    if acts != [] {
      var init := acts[..|acts| - 1];
      AlwaysIff(law, cfg, n, init, id);
      if Always(law, cfg, n, init, id) { LawStepIff(law, cfg, n, init, acts[|acts| - 1], id); }
    }
  }

  /** Only a queued task with a cancel request makes a worker cancel it before the claim. */
  lemma CancelSeenStep(s: Sys, a: Action, id: Id, w: nat)
    requires RowFits(s, id) && w < |s.workers| && s.workers[w] != CancelSeen(id)
    ensures Step(s, a).workers[w] != CancelSeen(id)
  {
  }

  /** While a task's columns fit, the branch of _process that cancels it before the claim is
      dead: no worker finds it queued with a cancel request. */
  lemma {:induction false} NoEarlyCancel(cfg: Config, n: nat, acts: seq<Action>, id: Id, w: nat)
    requires Always(ColumnsFit, cfg, n, acts, id)
    ensures var s := Run(cfg, n, acts); w < |s.workers| ==> s.workers[w] != CancelSeen(id)
  {
    if acts != [] {
      var init := acts[..|acts| - 1];
      NoEarlyCancel(cfg, n, init, id, w);
      assert Holds(ColumnsFit, Run(cfg, n, init), id);
      if w < |Run(cfg, n, init).workers| { CancelSeenStep(Run(cfg, n, init), acts[|acts| - 1], id, w); }
    }
  }

  // ---- undisturbed runs ----

  lemma RunningReports(s: Sys, a: Action, id: Id)
    requires RunningAlone(s, id) && NoneOf({HeldReport}, s, a, id)
    ensures !Occurs(LateReport, s, a, id)
  {
    if Commits(s, a, id) {
      assert !Occurs(HeldReport, s, a, id);
      if ByWorker(s, a) && s.workers[a.w].Executing? {
        assert Failing(s.workers[a.w].phase) || Runs(s, a.w, id);
      }
    }
  }

  const INTERRUPTIONS := Causes(RunByOne)

  /** As long as nobody ends a task under its executor, and no connection reports it running
      when it is not: folding its log gives exactly its stored status, and it is running
      whenever it is executed. */
  lemma {:induction false} AgreementUndisturbed(cfg: Config, n: nat, acts: seq<Action>, id: Id)
    requires Projects(cfg.validator) && Never(INTERRUPTIONS + {HeldReport}, cfg, n, acts, id)
    ensures RowAgrees(Run(cfg, n, acts), id) && RunningAlone(Run(cfg, n, acts), id)
  {
    NeverFewer(INTERRUPTIONS + {HeldReport}, INTERRUPTIONS, cfg, n, acts, id);
    AlwaysIff(RunByOne, cfg, n, acts, id);
    assert Holds(RunByOne, Run(cfg, n, acts), id);
    if acts != [] {
      var init, a := acts[..|acts| - 1], acts[|acts| - 1];
      AgreementUndisturbed(cfg, n, init, id);
      RunningReports(Run(cfg, n, init), a, id);
      AgreementStepIff(Run(cfg, n, init), a, id);
    }
  }

  // ---- one worker ----

  /** A single worker neither expires a task under an executor nor fails it under another. */
  lemma OneWorkerStep(s: Sys, a: Action, id: Id)
    requires |s.workers| == 1
    ensures NoneOf({Expiry, LateFailure}, s, a, id)
  {
  }

  lemma {:induction false} OneWorkerNever(ms: set<Mishap>, cfg: Config, acts: seq<Action>, id: Id)
    requires Never(ms, cfg, 1, acts, id)
    ensures Never(ms + {Expiry, LateFailure}, cfg, 1, acts, id)
  {
    if acts != [] {
      var init, a := acts[..|acts| - 1], acts[|acts| - 1];
      OneWorkerNever(ms, cfg, init, id);
      CfgKept(Init(cfg, 1), init);
      OneWorkerStep(Run(cfg, 1, init), a, id);
    }
  }

  const HELD := {HeldEnd, HeldRequeue, HeldReport}

  /** With one worker process and any number of callers and connections: folding a task's
      event log gives exactly the stored status, in every reachable state to which no
      connection came by a command on a status it wrongly held. */
  lemma OneWorkerAgreement(cfg: Config, acts: seq<Action>, id: Id)
    requires Projects(cfg.validator) && Never(HELD, cfg, 1, acts, id)
    ensures RowAgrees(Run(cfg, 1, acts), id)
  {
    OneWorkerNever(HELD, cfg, acts, id);
    NeverFewer(HELD + {Expiry, LateFailure}, INTERRUPTIONS + {HeldReport}, cfg, 1, acts, id);
    AgreementUndisturbed(cfg, 1, acts, id);
  }

  /** With one worker process, throughout any run: a task has one executor at a time, and is
      running whenever it is executed, exactly when no connection ends or requeues it under
      its executor. */
  lemma OneWorkerRunningIff(cfg: Config, acts: seq<Action>, id: Id)
    requires Projects(cfg.validator)
    ensures Always(RunByOne, cfg, 1, acts, id) <==> Never({HeldEnd, HeldRequeue}, cfg, 1, acts, id)
  {
    AlwaysIff(RunByOne, cfg, 1, acts, id);
    if Never({HeldEnd, HeldRequeue}, cfg, 1, acts, id) {
      OneWorkerNever({HeldEnd, HeldRequeue}, cfg, acts, id);
      NeverFewer({HeldEnd, HeldRequeue} + {Expiry, LateFailure}, INTERRUPTIONS, cfg, 1, acts, id);
    } else if Never(INTERRUPTIONS, cfg, 1, acts, id) {
      NeverFewer(INTERRUPTIONS, {HeldEnd, HeldRequeue}, cfg, 1, acts, id);
    }
  }

  lemma OneWorkerOwned(cfg: Config, acts: seq<Action>, id: Id)
    requires Projects(cfg.validator) && Never({HeldRequeue}, cfg, 1, acts, id)
    ensures OneExecutor(Run(cfg, 1, acts), id)
  {
    OneWorkerNever({HeldRequeue}, cfg, acts, id);
    NeverFewer({HeldRequeue} + {Expiry, LateFailure}, Causes(OwnedByOne), cfg, 1, acts, id);
    AlwaysIff(OwnedByOne, cfg, 1, acts, id);
    assert Holds(OwnedByOne, Run(cfg, 1, acts), id);
  }

  /** With one worker process, all of that holds as long as each command of a connection
      finds the row in the status it holds; then no status is left against the table either. */
  lemma {:induction false} CurrentIsEnough(cfg: Config, acts: seq<Action>, id: Id)
    requires Projects(cfg.validator) && Never({Stale}, cfg, 1, acts, id)
    ensures Never(HELD + {Leap}, cfg, 1, acts, id)
  {
    if acts != [] {
      var init, a := acts[..|acts| - 1], acts[|acts| - 1];
      CurrentIsEnough(cfg, init, id);
      NeverFewer(HELD + {Leap}, {HeldRequeue}, cfg, 1, init, id);
      OneWorkerOwned(cfg, init, id);
      HeldMishapsAreStale(Run(cfg, 1, init), a, id);
    }
  }
}
