/** What a user sees: the client catches up by replay, and its status agrees with the
    stored row. */
module ClientView {
  import opened Basics
  import opened TaskRecord
  import opened Graph
  import opened Protocol
  import opened Lifecycle
  import opened ClientStore
  import EventReplay
  import Numbering

  lemma ShowsWholeLog(task: Id, log: seq<Event>, numbers: seq<nat>)
    requires NoGap(|log|, numbers) && Highest(numbers) == |log|
    ensures Delivered(Receive(task, log), numbers).status == StatusFold(log)
    ensures Delivered(Receive(task, log), numbers).question == QuestionFold(log)
  {
    DeliveryShowsLog(task, log, numbers, 0);
    assert log[..|log|] == log;
  }

  /** A client that started empty and has received all of a task's events, duplicated and
      replayed in any order without a gap, shows the status of the stored row exactly when
      log and row agree. */
  lemma ShowsRowIff(task: Id, t: Task, numbers: seq<nat>)
    requires NoGap(|t.log|, numbers) && Highest(numbers) == |t.log|
    ensures Delivered(Receive(task, t.log), numbers).status == Some(t.status) <==> Agrees(t)
  {
    ShowsWholeLog(task, t.log, numbers);
  }

  /** So it does in every run in which nobody reports the row running when it is not. */
  lemma ClientShowsRow(cfg: Config, n: nat, acts: seq<Action>, id: Id, numbers: seq<nat>)
    requires Projects(cfg.validator) && id in Run(cfg, n, acts).tasks
    requires Never({LateReport}, cfg, n, acts, id)
    requires var log := Run(cfg, n, acts).tasks[id].log; NoGap(|log|, numbers) && Highest(numbers) == |log|
    ensures var t := Run(cfg, n, acts).tasks[id];
      Delivered(Receive(id, t.log), numbers).status == Some(t.status)
  {
    var t := Run(cfg, n, acts).tasks[id];
    assert Agrees(t) by {
      AlwaysIff(LogAgrees, cfg, n, acts, id);
      assert Holds(LogAgrees, Run(cfg, n, acts), id);
    }
    ShowsRowIff(id, t, numbers);
  }

  /** With one worker process that is: unless a connection acts on a status it wrongly holds. */
  lemma OneWorkerClientShowsRow(cfg: Config, acts: seq<Action>, id: Id, numbers: seq<nat>)
    requires Projects(cfg.validator) && id in Run(cfg, 1, acts).tasks
    requires Never(HELD, cfg, 1, acts, id)
    requires var log := Run(cfg, 1, acts).tasks[id].log; NoGap(|log|, numbers) && Highest(numbers) == |log|
    ensures var t := Run(cfg, 1, acts).tasks[id];
      Delivered(Receive(id, t.log), numbers).status == Some(t.status)
  {
    var t := Run(cfg, 1, acts).tasks[id];
    assert Agrees(t) by { OneWorkerAgreement(cfg, acts, id); }
    ShowsRowIff(id, t, numbers);
  }

  /** A running task that goes over to waiting_input with a question shows it to every client
      that has received all of its events. */
  lemma QuestionIsShown(task: Id, t: Task, step: Option<string>, error: Option<string>, question: string, now: nat,
                        numbers: seq<nat>)
    requires t.status == Running && question != ""
    requires var log := Apply(Transition(WaitingInput, step, error, Some(question)), t, now).log;
      NoGap(|log|, numbers) && Highest(numbers) == |log|
    ensures var log := Apply(Transition(WaitingInput, step, error, Some(question)), t, now).log;
      var shown := Delivered(Receive(task, log), numbers);
      shown.question == Some(question) && shown.status == Some(WaitingInput)
  {
    var op := Transition(WaitingInput, step, error, Some(question));
    var log := Apply(op, t, now).log;
    LogGrows(op, t, now);
    assert log[|log| - 1] == ClarificationRequired(question);
    ShowsWholeLog(task, log, numbers);
  }

  // ---- catching up ----

  function Payloads(rows: seq<Numbering.Row<Event>>): (log: seq<Event>)
    ensures |log| == |rows| && forall i :: 0 <= i < |log| ==> log[i] == rows[i].payload
  {
    seq(|rows|, i requires 0 <= i < |rows| => rows[i].payload)
  }

  function Numbers(rows: seq<Numbering.Row<Event>>): (r: seq<nat>)
    ensures |r| == |rows| && forall i :: 0 <= i < |r| ==> r[i] == rows[i].num
  {
    seq(|rows|, i requires 0 <= i < |rows| => rows[i].num)
  }

  /** Numbers that go up by one from the highest so far leave no gap. */
  lemma {:induction false} CountingUp(n: nat, numbers: seq<nat>, more: seq<nat>)
    requires NoGap(n, numbers) && Highest(numbers) + |more| <= n
    requires forall i :: 0 <= i < |more| ==> more[i] == Highest(numbers) + 1 + i
    ensures NoGap(n, numbers + more) && Highest(numbers + more) == Highest(numbers) + |more|
  {
    if more == [] {
      assert numbers + more == numbers;
    } else {
      var init, k := more[..|more| - 1], more[|more| - 1];
      CountingUp(n, numbers, init);
      assert numbers + more == (numbers + init) + [k];
      NoGapSnoc(n, numbers + init, k);
    }
  }

  lemma NoGapSnoc(n: nat, numbers: seq<nat>, k: nat)
    requires NoGap(n, numbers) && 1 <= k <= n && k <= Highest(numbers) + 1
    ensures NoGap(n, numbers + [k]) && Highest(numbers + [k]) == Max(Highest(numbers), k)
  {
    var all := numbers + [k];
    assert all[..|numbers|] == numbers;
    forall i | 0 <= i < |all| ensures 1 <= all[i] <= n && all[i] <= Highest(all[..i]) + 1 {
      if i < |numbers| { assert all[..i] == numbers[..i]; }
    }
  }

  /** Delivering what comes after the highest number completes the log. */
  lemma Completed(task: Id, rows: seq<Numbering.Row<Event>>, numbers: seq<nat>, more: seq<nat>)
    requires EventReplay.Numbered(rows) && NoGap(|rows|, numbers) && Highest(numbers) <= |rows|
    requires more == Numbers(rows[Highest(numbers)..])
    ensures NoGap(|rows|, numbers + more)
    ensures Delivered(Receive(task, Payloads(rows)), numbers + more) == InOrder(Receive(task, Payloads(rows)), |rows|)
  {
    assert NoGap(|rows|, numbers + more) && Highest(numbers + more) == |rows| by { CountingUp(|rows|, numbers, more); }
    ReceiveDeduplicates(task, Payloads(rows));
    DeliveredIsInOrder(Receive(task, Payloads(rows)), task, |rows|, numbers + more);
  }

  lemma {:induction false} HighestWithin(n: nat, numbers: seq<nat>)
    requires NoGap(n, numbers)
    ensures Highest(numbers) <= n
  {
    if numbers != [] {
      NoGapPrefix(n, numbers);
      HighestWithin(n, numbers[..|numbers| - 1]);
    }
  }

  /** A client that has received some events, in any order without a gap, and then reads back
      all events after the highest of them, has the store of the whole log. */
  method CatchUp(task: Id, rows: seq<Numbering.Row<Event>>, numbers: seq<nat>, limit: nat) returns (all: seq<nat>)
    requires EventReplay.Numbered(rows) && NoGap(|rows|, numbers) && limit > 0
    ensures NoGap(|rows|, all)
    ensures Delivered(Receive(task, Payloads(rows)), all) == InOrder(Receive(task, Payloads(rows)), |rows|)
  {
    HighestWithin(|rows|, numbers);
    var read := EventReplay.ReadAll(rows, Highest(numbers), limit);
    all := numbers + Numbers(read);
    Completed(task, rows, numbers, Numbers(read));
  }
}
