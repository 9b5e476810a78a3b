/** Cooperative cancellation: what an executor can still do once a cancel of its task has
    committed, for any number of workers and any interleaving. */
module Cancellation {
  import opened Basics
  import opened TaskRecord
  import opened TaskQueue
  import opened Graph
  import opened Protocol
  import opened Lifecycle

  /** The executor's own steps that are left, at most, once the cancel request is in. */
  function StepsLeft(p: Phase): (n: nat)
    ensures n <= 6
  {
    match p
    case PreCheck => 2
    case Entry(_, _) => 2
    case Rebuild(_, _) => 6
    case Start(_, _) => 5
    case Body(_, _) => 4
    case Tool(_, _, stage) =>
      (match stage case CheckIn => 3 case EmitStarted => 6 case Operate => 5 case EmitFinished => 4 case CheckOut => 3)
    case Exit(_, _) => 3
    case NodeFailed(_, _) => 2
    case NodeFinished(_, _) => 4
    case Persisting(_) => 3
    case PostCheck(_) => 2
    case Commit(ending) => if ending.Finish? then 2 else 1
  }

  /** Node bodies still to be entered: only one whose entry check has passed. */
  function BodiesLeft(p: Phase): nat { if p.Rebuild? || p.Start? then 1 else 0 }

  /** The outcome is decided otherwise: a raised error, or the final check is behind. */
  predicate Excused(p: Phase) { (p.NodeFailed? || p.Commit?) && p.ending != Stop }

  datatype Deed = OwnStep | BodyEntered | CheckPassed | ErrorMade

  predicate PassesCheck(p: Phase, next: Phase) {
    match p
    case PreCheck => next.Entry?
    case Entry(_, _) => next.Start? || next.Rebuild?
    case Tool(_, _, CheckIn) => next.Tool?
    case Tool(_, _, CheckOut) => next.Body?
    case Exit(_, _) => next.NodeFinished?
    case PostCheck(ending) => next == Commit(ending) && ending != Stop
    case _ => false
  }

  /** What an action is for the executor in worker w. */
  predicate Does(deed: Deed, s: Sys, a: Action, w: nat) {
    && a.Work? && a.w == w < |s.workers| && s.workers[w].Executing?
    && var p, next := s.workers[w].phase, NextPhase(s, s.workers[w].id, s.workers[w].phase, a.choice);
       match deed
       case OwnStep => true
       case BodyEntered => p.Start?
       case CheckPassed => PassesCheck(p, next)
       case ErrorMade => !p.NodeFailed? && !p.Commit? && Excused(next)
  }

  function Tally(deed: Deed, s: Sys, more: seq<Action>, w: nat): nat {
    if more == [] then 0
    else
      var init := more[..|more| - 1];
      Tally(deed, s, init, w) + if Does(deed, Steps(s, init), more[|more| - 1], w) then 1 else 0
  }

  /** `more` is a stretch of the execution in worker w, up to its last step at most, in
      which that worker meets no infrastructure failure. */
  ghost predicate WithinExecution(s: Sys, more: seq<Action>, w: nat) {
    forall i :: 0 <= i < |more| ==>
      && w < |Steps(s, more[..i]).workers| && Steps(s, more[..i]).workers[w].Executing?
      && more[i] != Crash(w) && !(more[i].Fault? && more[i].w == w)
  }

  predicate Executes(s: Sys, w: nat, id: Id) { w < |s.workers| && s.workers[w].Executing? && s.workers[w].id == id }

  predicate CancelIn(s: Sys, id: Id) { id in s.tasks && s.tasks[id].cancelRequested }

  /** While a task is executed its cancel request is not cleared. */
  lemma RequestStays(s: Sys, a: Action, w: nat, id: Id)
    requires OneExecutor(s, id) && Runs(s, w, id) && CancelIn(s, id) && !Occurs(HeldRequeue, s, a, id)
    ensures CancelIn(Step(s, a), id)
  {
    assert Owned(s, id);
    RowAfter(s, a, id);
    if Commits(s, a, id) { RequestKept(DbOp(s, a).value.1, s.tasks[id], s.now); }
  }

  lemma RequestKept(op: Op, t: Task, now: nat)
    requires t.cancelRequested && (t.status == Running || t.status == Cancelled) && !RequeuesHeld(op)
    ensures Apply(op, t, now).cancelRequested
  {
  }

  /** With the request in, an executor's phase moves towards its end without passing a check. */
  lemma PhaseShrinks(s: Sys, id: Id, p: Phase, c: Choice)
    requires CancelIn(s, id) && PhaseOk(p) && !p.Commit?
    ensures var p' := NextPhase(s, id, p, c);
      && !PassesCheck(p, p') && StepsLeft(p') < StepsLeft(p)
      && BodiesLeft(p') + (if p.Start? then 1 else 0) <= BodiesLeft(p)
      && (Excused(p') && p.NodeFailed? ==> Excused(p))
  {
  }

  /** The executor's own step: nothing passes, and it gets closer to its end. */
  lemma OwnStepShrinks(s: Sys, w: nat, id: Id, c: Choice)
    requires PhasesOk(s) && OneExecutor(s, id) && Runs(s, w, id) && CancelIn(s, id)
    ensures var a, s', p := Work(w, c), Step(s, Work(w, c)), s.workers[w].phase;
      && !Does(CheckPassed, s, a, w)
      && (if s'.workers[w].Executing? then
            var p' := s'.workers[w].phase;
            && Executes(s', w, id) && StepsLeft(p') < StepsLeft(p)
            && BodiesLeft(p') + (if Does(BodyEntered, s, a, w) then 1 else 0) <= BodiesLeft(p)
            && (Excused(p') ==> Excused(p) || Does(ErrorMade, s, a, w))
          else
            && 1 <= StepsLeft(p) && !Does(BodyEntered, s, a, w)
            && (!Excused(p) ==> HasStatus(s', id, Cancelled)))
  {
    assert Owned(s, id);
    var p := s.workers[w].phase;
    if p.Commit? { CommitEnds(s, w, id, c); } else { PhaseShrinks(s, id, p, c); }
  }

  lemma CommitEnds(s: Sys, w: nat, id: Id, c: Choice)
    requires Executes(s, w, id) && s.workers[w].phase.Commit? && Owned(s, id)
    ensures var s', ending := Step(s, Work(w, c)), s.workers[w].phase.ending;
      if s'.workers[w].Executing? then ending.Finish? && s'.workers[w] == Executing(id, Commit(UNEXPECTED))
      else ending == Stop ==> HasStatus(s', id, Cancelled)
  {
  }

  /** Committing a failure is the last step, and no deed but a step. */
  lemma FailingEnds(s: Sys, w: nat, id: Id, c: Choice)
    requires Executes(s, w, id) && Failing(s.workers[w].phase)
    ensures var a := Work(w, c);
      && !Step(s, a).workers[w].Executing?
      && !Does(CheckPassed, s, a, w) && !Does(BodyEntered, s, a, w) && !Does(ErrorMade, s, a, w)
  {
  }

  datatype Deeds = Deeds(steps: nat, bodies: nat, checks: nat, errors: nat)

  /** What the executor in worker w, at phase p when the cancel committed, has come to
      after those deeds: it is still executing, closer to its end, or it has ended.  Only
      while it commits a failure may the request be gone: then the task may run again. */
  predicate Honoured(p: Phase, t: Sys, w: nat, id: Id, done: Deeds) {
    && w < |t.workers| && done.checks == 0
    && done.bodies <= BodiesLeft(p) && done.steps <= StepsLeft(p)
    && (if t.workers[w].Executing? then
          var p' := t.workers[w].phase;
          && Executes(t, w, id) && (Failing(p') || CancelIn(t, id))
          && done.steps + StepsLeft(p') <= StepsLeft(p) && done.bodies + BodiesLeft(p') <= BodiesLeft(p)
          && (Excused(p') ==> Excused(p) || done.errors > 0)
        else
          !Excused(p) && done.errors == 0 ==> HasStatus(t, id, Cancelled))
  }

  function DeedsOf(s: Sys, more: seq<Action>, w: nat): Deeds {
    Deeds(Tally(OwnStep, s, more, w), Tally(BodyEntered, s, more, w),
          Tally(CheckPassed, s, more, w), Tally(ErrorMade, s, more, w))
  }

  lemma HonouredStep(p: Phase, t: Sys, a: Action, w: nat, id: Id, done: Deeds)
    requires PhasesOk(t) && OneExecutor(t, id) && !Occurs(HeldRequeue, t, a, id)
    requires Honoured(p, t, w, id, done) && t.workers[w].Executing?
    requires a != Crash(w) && !(a.Fault? && a.w == w)
    ensures Honoured(p, Step(t, a), w, id,
              Deeds(done.steps + One(Does(OwnStep, t, a, w)), done.bodies + One(Does(BodyEntered, t, a, w)),
                    done.checks + One(Does(CheckPassed, t, a, w)), done.errors + One(Does(ErrorMade, t, a, w))))
  {
    if Failing(t.workers[w].phase) {
      if a.Work? && a.w == w { FailingEnds(t, w, id, a.choice); }
    } else {
      RequestStays(t, a, w, id);
      if a.Work? && a.w == w { OwnStepShrinks(t, w, id, a.choice); }
    }
  }

  /** After the stretch `more`: no check passed, at most one body entered and at most six
      own steps taken since s, and the rest of Honoured. */
  predicate CancelHonoured(s: Sys, more: seq<Action>, w: nat, id: Id) {
    && w < |s.workers| && s.workers[w].Executing?
    && Honoured(s.workers[w].phase, Steps(s, more), w, id, DeedsOf(s, more, w))
    && DeedsOf(s, more, w).checks == 0 && DeedsOf(s, more, w).bodies <= 1 && DeedsOf(s, more, w).steps <= 6
  }

  lemma HonouredExtends(s: Sys, more: seq<Action>, w: nat, id: Id)
    requires more != [] && w < |s.workers| && s.workers[w].Executing?
    requires var init, a := more[..|more| - 1], more[|more| - 1];
      var t := Steps(s, init);
      && PhasesOk(t) && OneExecutor(t, id) && !Occurs(HeldRequeue, t, a, id)
      && w < |t.workers| && t.workers[w].Executing?
      && a != Crash(w) && !(a.Fault? && a.w == w)
      && Honoured(s.workers[w].phase, t, w, id, DeedsOf(s, init, w))
    ensures Honoured(s.workers[w].phase, Steps(s, more), w, id, DeedsOf(s, more, w))
  {
    var init, a := more[..|more| - 1], more[|more| - 1];
    HonouredStep(s.workers[w].phase, Steps(s, init), a, w, id, DeedsOf(s, init, w));
  }

  lemma WithinPrefix(s: Sys, more: seq<Action>, w: nat)
    requires more != [] && WithinExecution(s, more, w)
    ensures WithinExecution(s, more[..|more| - 1], w)
    ensures var t, a := Steps(s, more[..|more| - 1]), more[|more| - 1];
      w < |t.workers| && t.workers[w].Executing? && a != Crash(w) && !(a.Fault? && a.w == w)
  {
    var init := more[..|more| - 1];
    assert forall i :: 0 <= i < |init| ==> init[..i] == more[..i];
    assert more[..|init|] == init;
  }

  /** Once a cancel of an executing task has committed: no later check passes, at most one
      more node body is entered, the executor takes at most six more steps of its own, and
      when it is done the task is cancelled, unless a step raised an error or the outcome
      was already decided when the cancel committed.  For any number of workers, as long as
      none of them fails the task under another, and no connection requeues it under its
      executor. */
  lemma {:induction false} CancelIsHonoured(cfg: Config, n: nat, acts: seq<Action>, more: seq<Action>, w: nat, id: Id)
    requires Projects(cfg.validator) && Never({LateFailure, HeldRequeue}, cfg, n, acts + more, id)
    requires Executes(Run(cfg, n, acts), w, id) && CancelIn(Run(cfg, n, acts), id)
    requires WithinExecution(Run(cfg, n, acts), more, w)
    ensures CancelHonoured(Run(cfg, n, acts), more, w, id)
  {
    var s := Run(cfg, n, acts);
    if more != [] {
      var init, a := more[..|more| - 1], more[|more| - 1];
      assert (acts + more)[..|acts + more| - 1] == acts + init;
      WithinPrefix(s, more, w);
      CancelIsHonoured(cfg, n, acts, init, w, id);
      assert PhasesOk(Steps(s, init)) && OneExecutor(Steps(s, init), id)
             && !Occurs(HeldRequeue, Steps(s, init), a, id) by {
        RunConcat(cfg, n, acts, init);
        ReachablePhases(cfg, n, acts + init);
        AlwaysIff(OwnedByOne, cfg, n, acts + init, id);
        assert Holds(OwnedByOne, Run(cfg, n, acts + init), id);
        assert NoneOf({LateFailure, HeldRequeue}, Run(cfg, n, acts + init), a, id);
      }
      HonouredExtends(s, more, w, id);
    }
  }

  /** With one worker process, as long as no connection requeues the task under its executor. */
  lemma OneWorkerCancelIsHonoured(cfg: Config, acts: seq<Action>, more: seq<Action>, id: Id)
    requires Projects(cfg.validator) && Never({HeldRequeue}, cfg, 1, acts + more, id)
    requires Executes(Run(cfg, 1, acts), 0, id) && CancelIn(Run(cfg, 1, acts), id)
    requires WithinExecution(Run(cfg, 1, acts), more, 0)
    ensures CancelHonoured(Run(cfg, 1, acts), more, 0, id)
  {
    OneWorkerNever({HeldRequeue}, cfg, acts + more, id);
    NeverFewer({HeldRequeue} + {Expiry, LateFailure}, {LateFailure, HeldRequeue}, cfg, 1, acts + more, id);
    CancelIsHonoured(cfg, 1, acts, more, 0, id);
  }
}
