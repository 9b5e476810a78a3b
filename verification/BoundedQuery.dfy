/** Bounding a generated query: the LIMIT it is given, the rows that are returned, and the
    attempts made to get one executed. */
module BoundedQuery {
  import opened Basics

  /** The top-level limit of a statement: LIMIT with an integer literal, LIMIT with any other
      expression, or FETCH FIRST, whose count is not where the code looks for it. */
  datatype Limit = NoLimit | Literal(rows: nat) | Computed(rows: nat) | FetchFirst(rows: nat)

  /** A limit the code does not read. */
  predicate Overlooked(limit: Limit) { limit.Computed? || limit.FetchFirst? }

  /** A parsed statement: the rows it selects before its LIMIT, and that LIMIT. */
  datatype Query<R> = Query(base: seq<R>, limit: Limit)

  /** What the database returns. */
  function ResultOf<R>(q: Query<R>): seq<R> {
    match q.limit
    case NoLimit => q.base
    case Literal(n) => First(q.base, n)
    case Computed(n) => First(q.base, n)
    case FetchFirst(n) => First(q.base, n)
  }

  /** _bounded_sql: only an integer literal counts as an existing limit. */
  function Bounded<R>(q: Query<R>, rowLimit: nat): Query<R> {
    if q.limit.Literal? && q.limit.rows <= rowLimit then q else q.(limit := Literal(rowLimit))
  }

  datatype Execution<R> = Executed(rows: seq<R>, scanned: nat, truncated: bool) | ScanLimitExceeded

  /** _execute, given what EXPLAIN estimates for the original statement. */
  method Execute<R>(q: Query<R>, maxRows: nat, maxScanned: nat, estimate: Option<nat>) returns (e: Execution<R>)
    ensures e.Executed? ==>
              var fetched := First(ResultOf(Bounded(q, maxRows + 1)), maxRows + 1);
              e.rows == First(fetched, maxRows) && e.truncated == (|fetched| > maxRows)
    ensures e.Executed? && (!Overlooked(q.limit) || q.limit.rows > maxRows) ==>
              e.rows == First(ResultOf(q), maxRows) && (e.truncated <==> |ResultOf(q)| > maxRows)
    ensures e.ScanLimitExceeded? <==>
              estimate.GetOr(|First(ResultOf(Bounded(q, maxRows + 1)), maxRows + 1)|) > maxScanned
  {
    var bounded := Bounded(q, maxRows + 1);
    if estimate.Some? && estimate.value > maxScanned { return ScanLimitExceeded; }
    var mappings := First(ResultOf(bounded), maxRows + 1);
    var truncated := |mappings| > maxRows;
    var rows := First(mappings, maxRows);
    var scanned := if estimate.Some? then estimate.value else |mappings|;
    if scanned > maxScanned { return ScanLimitExceeded; }
    e := Executed(rows, scanned, truncated);
    if !Overlooked(q.limit) || q.limit.rows > maxRows { FaithfulHere(q.base, q.limit, maxRows); }
  }

  /** The bounded statement answers for the original: its first maxRows rows, and whether
      there were more. */
  predicate Faithful<R(==)>(q: Query<R>, maxRows: nat) {
    var fetched := First(ResultOf(Bounded(q, maxRows + 1)), maxRows + 1);
    && First(fetched, maxRows) == First(ResultOf(q), maxRows)
    && ((|fetched| > maxRows) <==> (|ResultOf(q)| > maxRows))
  }

  /** With no limit or an integer LIMIT the answer is always the original's. */
  lemma BoundingPreserves<R>(q: Query<R>, maxRows: nat)
    requires !Overlooked(q.limit)
    ensures Faithful(q, maxRows)
  {
  }

  /** An overlooked limit is overwritten, so the answer is the original's exactly when that
      limit exceeds maxRows or does not cut anything off. */
  lemma OverlookedLimitIff<R>(q: Query<R>, maxRows: nat)
    requires Overlooked(q.limit)
    ensures Faithful(q, maxRows) <==> q.limit.rows > maxRows || |q.base| <= q.limit.rows
  {
  }

  /** Whatever the data, bounding is faithful exactly for statements whose limit is absent,
      an integer LIMIT, or more than maxRows. */
  lemma FaithfulForAllDataIff(limit: Limit, maxRows: nat)
    ensures (forall base: seq<int> :: Faithful(Query(base, limit), maxRows))
              <==> !Overlooked(limit) || limit.rows > maxRows
  {
    if Overlooked(limit) && limit.rows <= maxRows {
      var longer := seq(limit.rows + 1, _ => 0);
      OverlookedLimitIff(Query(longer, limit), maxRows);
      assert !Faithful(Query(longer, limit), maxRows);
    } else {
      forall base: seq<int> ensures Faithful(Query(base, limit), maxRows) { FaithfulHere(base, limit, maxRows); }
    }
  }

  lemma FaithfulHere<R>(base: seq<R>, limit: Limit, maxRows: nat)
    requires Overlooked(limit) ==> limit.rows > maxRows
    ensures Faithful(Query(base, limit), maxRows)
  {
    if Overlooked(limit) {
      OverlookedLimitIff(Query(base, limit), maxRows);
    } else {
      BoundingPreserves(Query(base, limit), maxRows);
    }
  }

  /** `LIMIT 1 + 1` and `FETCH FIRST 2 ROWS ONLY` of three rows with room for five return
      all three. */
  lemma OverlookedLimitsLost()
    ensures !Faithful(Query([1, 2, 3], Computed(2)), 5) && !Faithful(Query([1, 2, 3], FetchFirst(2)), 5)
  {
    OverlookedLimitIff(Query([1, 2, 3], Computed(2)), 5);
    OverlookedLimitIff(Query([1, 2, 3], FetchFirst(2)), 5);
  }

  // ---- attempts ----

  type Sql = string

  /** What an execution comes to: DatabaseError is a SQLAlchemyError; Refused is any other
      exception, a refusal of the scan or the timeout included, and leaves the loop. */
  datatype Reply<A> = Answer(answer: A) | DatabaseError | Refused(code: string)

  /** The generator answers, raises a DataAgentError, or fails otherwise. */
  datatype Generation = Generated(sql: Sql) | Raised(code: string) | Crashed

  /** The checks, the generator and the database, as functions of what has been executed. */
  datatype Surroundings<!A> = Surroundings(
    valid: Sql -> bool, intended: Sql -> bool, run: (Sql, nat) -> Reply<A>,
    regenerated: Generation, template: Option<Sql>)

  /** Why no answer is given: the last database error, the intent check, the allowlist check,
      a generator without a substitute, a refused execution, or the generator's own error. */
  datatype Failure = Database | Mismatch | Rejected | ModelFailed | Refusal(code: string) | Generator(code: string)

  datatype Outcome<A> = Returned(sql: Sql, answer: A) | Failed(why: Failure)

  /** _regenerate_sql: a failing generator is replaced by the template. */
  function Regenerated<A>(o: Surroundings<A>): Outcome<Sql> {
    match o.regenerated
    case Generated(sql) => if o.valid(sql) then Returned(sql, sql) else Failed(Rejected)
    case Raised(code) => Failed(Generator(code))
    case Crashed => match o.template case Some(sql) => Returned(sql, sql) case None => Failed(ModelFailed)
  }

  predicate Acceptable<A>(o: Surroundings<A>, sql: Sql) {
    (o.intended(sql) || o.template == Some(sql)) && (o.valid(sql) || o.template == Some(sql))
  }

  /** The statements executed so far, and how the last one ended. */
  predicate Trace<A>(o: Surroundings<A>, executed: seq<Sql>) {
    && (forall i :: 0 <= i < |executed| ==> Acceptable(o, executed[i]))
    && (forall i :: 0 <= i < |executed| - 1 ==> o.run(executed[i], i).DatabaseError?)
  }

  // ---- when an answer is given, and what a failure stands for ----

  /** The statement is run after n others exactly when it passes the intent check. */
  function Tried<A>(o: Surroundings<A>, sql: Sql): seq<Sql> { if o.intended(sql) then [sql] else [] }

  /** It is not run, or the database raises an error. */
  predicate GivesWay<A>(o: Surroundings<A>, sql: Sql, n: nat) { o.intended(sql) ==> o.run(sql, n).DatabaseError? }

  /** The statement to try next: generated and valid, or the template for a crashed generator. */
  predicate Replaces<A>(o: Surroundings<A>, next: Sql) {
    (o.regenerated == Generated(next) && o.valid(next)) || (o.regenerated.Crashed? && o.template == Some(next))
  }

  /** There is no statement to try next. */
  predicate NothingReplaces<A>(o: Surroundings<A>, why: Failure) {
    || (o.regenerated.Generated? && !o.valid(o.regenerated.sql) && why == Rejected)
    || (o.regenerated.Raised? && why == Generator(o.regenerated.code))
    || (o.regenerated.Crashed? && o.template == None && why == ModelFailed)
  }

  /** The first statement, and the one that replaced it, both gave way; `executed` were run. */
  predicate BothGaveWay<A>(o: Surroundings<A>, sql: Sql, next: Sql, executed: seq<Sql>) {
    && GivesWay(o, sql, 0) && Replaces(o, next) && GivesWay(o, next, |Tried(o, sql)|)
    && executed == Tried(o, sql) + Tried(o, next)
  }

  /** The template is the last resort, unless it is the statement that was just run. */
  predicate LastResort<A>(o: Surroundings<A>, next: Sql, template: Sql) {
    o.template == Some(template) && (o.intended(next) ==> template != next)
  }

  /** The reply that settles it: the first one that is not a database error, or that of the
      template. */
  ghost predicate SettledBy<A>(o: Surroundings<A>, sql: Sql, last: Sql, reply: Reply<A>, executed: seq<Sql>) {
    || (o.intended(sql) && last == sql && executed == [sql] && reply == o.run(sql, 0) && !reply.DatabaseError?)
    || (GivesWay(o, sql, 0) && Replaces(o, last) && o.intended(last) && executed == Tried(o, sql) + [last]
        && reply == o.run(last, |Tried(o, sql)|) && !reply.DatabaseError?)
    || (exists next, before ::
          && BothGaveWay(o, sql, next, before) && LastResort(o, next, last) && o.valid(last)
          && executed == before + [last] && reply == o.run(last, |before|))
  }

  /** The template is missing, was just run, or does not pass the allowlist check. */
  predicate NoResort<A>(o: Surroundings<A>, next: Sql, why: Failure) {
    if o.template.Some? && LastResort(o, next, o.template.value) then
      !o.valid(o.template.value) && why == Rejected
    else why == if o.intended(next) then Database else Mismatch
  }

  /** No reply settles it, and why. */
  ghost predicate Unsettled<A>(o: Surroundings<A>, sql: Sql, why: Failure, executed: seq<Sql>) {
    || (GivesWay(o, sql, 0) && NothingReplaces(o, why) && executed == Tried(o, sql))
    || (exists next :: BothGaveWay(o, sql, next, executed) && NoResort(o, next, why))
  }

  /** What an outcome says of the surroundings. */
  ghost predicate Explained<A>(o: Surroundings<A>, sql: Sql, outcome: Outcome<A>, executed: seq<Sql>) {
    match outcome
    case Returned(last, answer) => SettledBy(o, sql, last, Answer(answer), executed)
    case Failed(Refusal(code)) => exists last :: SettledBy(o, sql, last, Refused(code), executed)
    case Failed(why) =>
      (why == Database && exists last :: SettledBy(o, sql, last, DatabaseError, executed))
      || Unsettled(o, sql, why, executed)
  }

  // ---- the conditions are exact ----

  /** At most one reply settles a query. */
  lemma SettledOnce<A>(o: Surroundings<A>, sql: Sql, last: Sql, reply: Reply<A>, executed: seq<Sql>,
                       last': Sql, reply': Reply<A>, executed': seq<Sql>)
    requires SettledBy(o, sql, last, reply, executed) && SettledBy(o, sql, last', reply', executed')
    ensures last == last' && reply == reply' && executed == executed'
  {
  }

  lemma SettledOrNot<A>(o: Surroundings<A>, sql: Sql, last: Sql, reply: Reply<A>, executed: seq<Sql>,
                        why: Failure, executed': seq<Sql>)
    requires SettledBy(o, sql, last, reply, executed)
    ensures !Unsettled(o, sql, why, executed')
  {
  }

  /** An outcome is the only one that its surroundings explain: a query that some statement
      answers is answered, and by that one. */
  lemma OutcomeIsExact<A>(o: Surroundings<A>, sql: Sql, outcome: Outcome<A>, executed: seq<Sql>,
                          last: Sql, answer: A, run: seq<Sql>)
    requires Explained(o, sql, outcome, executed)
    ensures SettledBy(o, sql, last, Answer(answer), run) <==> outcome == Returned(last, answer) && executed == run
  {
    if SettledBy(o, sql, last, Answer(answer), run) {
      forall l, reply: Reply<A> | SettledBy(o, sql, l, reply, executed)
        ensures l == last && reply == Answer(answer) && executed == run
      {
        SettledOnce(o, sql, last, Answer(answer), run, l, reply, executed);
      }
      if outcome.Failed? { SettledOrNot(o, sql, last, Answer(answer), run, outcome.why, executed); }
    }
  }

  method TryTemplate<A>(o: Surroundings<A>, executed: seq<Sql>, failure: Failure, skip: Option<Sql>,
                        ghost sql: Sql, ghost next: Sql)
    returns (outcome: Outcome<A>, after: seq<Sql>)
    requires Trace(o, executed) && (executed != [] ==> o.run(executed[|executed| - 1], |executed| - 1).DatabaseError?)
    requires BothGaveWay(o, sql, next, executed)
    requires skip == (if o.intended(next) then Some(next) else None)
    requires failure == (if o.intended(next) then Database else Mismatch)
    ensures Trace(o, after) && |executed| <= |after| <= |executed| + 1
    ensures outcome.Returned? ==>
              && after != [] && after[|after| - 1] == outcome.sql
              && o.run(outcome.sql, |after| - 1) == Answer(outcome.answer)
    ensures Explained(o, sql, outcome, after)
  {
    after := executed;
    if o.template.None? || o.template == skip { return Failed(failure), executed; }
    var template := o.template.value;
    if !o.valid(template) { return Failed(Rejected), executed; }
    after := executed + [template];
    assert SettledBy(o, sql, template, o.run(template, |executed|), after);
    match o.run(template, |executed|)
    case Answer(answer) => outcome := Returned(template, answer);
    case DatabaseError => outcome := Failed(Database);
    case Refused(code) => outcome := Failed(Refusal(code));
  }

  /** At most two attempts and one template.  An answer is given exactly when the first
      statement answers, or gives way and its replacement answers, or both give way and the
      template answers; the answer is that of the statement returned with it, and every other
      outcome tells why there was none.  The raise after the loop is never reached. */
  method ExecuteWithRetry<A>(o: Surroundings<A>, sql: Sql) returns (outcome: Outcome<A>, executed: seq<Sql>)
    requires o.valid(sql) || o.template == Some(sql)
    ensures Trace(o, executed) && |executed| <= 3
    ensures outcome.Returned? ==>
              && executed != [] && executed[|executed| - 1] == outcome.sql
              && o.run(outcome.sql, |executed| - 1) == Answer(outcome.answer)
    ensures Explained(o, sql, outcome, executed)
    ensures forall last, answer, run ::
              SettledBy(o, sql, last, Answer(answer), run) <==> outcome == Returned(last, answer) && executed == run
  {
    outcome, executed := Attempts(o, sql);
    forall last, answer, run
      ensures SettledBy(o, sql, last, Answer(answer), run) <==> outcome == Returned(last, answer) && executed == run
    {
      OutcomeIsExact(o, sql, outcome, executed, last, answer, run);
    }
  }

  method Attempts<A>(o: Surroundings<A>, sql: Sql) returns (outcome: Outcome<A>, executed: seq<Sql>)
    requires o.valid(sql) || o.template == Some(sql)
    ensures Trace(o, executed) && |executed| <= 3
    ensures outcome.Returned? ==>
              && executed != [] && executed[|executed| - 1] == outcome.sql
              && o.run(outcome.sql, |executed| - 1) == Answer(outcome.answer)
    ensures Explained(o, sql, outcome, executed)
  {
    var current := sql;
    executed := [];
    for attempt := 0 to 2
      invariant Trace(o, executed) && |executed| <= attempt
      invariant executed != [] ==> o.run(executed[|executed| - 1], |executed| - 1).DatabaseError?
      invariant o.valid(current) || o.template == Some(current)
      invariant attempt < 2
      invariant attempt == 0 ==> current == sql && executed == []
      invariant attempt == 1 ==> GivesWay(o, sql, 0) && Replaces(o, current) && executed == Tried(o, sql)
    {
      if !o.intended(current) {
        if attempt == 1 {
          outcome, executed := TryTemplate(o, executed, Mismatch, None, sql, current);
          return;
        }
      } else {
        var reply := o.run(current, |executed|);
        executed := executed + [current];
        if !reply.DatabaseError? { assert SettledBy(o, sql, current, reply, executed); }
        if reply.Answer? { return Returned(current, reply.answer), executed; }
        if reply.Refused? { return Failed(Refusal(reply.code)), executed; }
        if attempt == 1 {
          outcome, executed := TryTemplate(o, executed, Database, Some(current), sql, current);
          return;
        }
      }
      match Regenerated(o)
      case Failed(why) => return Failed(why), executed;
      case Returned(next, _) => current := next;
    }
    assert false;
  }

  /** A database failure is reported only when the last statement run raised a database error,
      and a mismatch only when the replacement failed the intent check and there is no template. */
  lemma FailureMeans<A>(o: Surroundings<A>, sql: Sql, why: Failure, executed: seq<Sql>)
    requires Explained(o, sql, Failed(why), executed)
    ensures why == Database ==> executed != [] && o.run(executed[|executed| - 1], |executed| - 1).DatabaseError?
    ensures why == Mismatch ==> o.template == None && exists next :: Replaces(o, next) && !o.intended(next)
    ensures why.Refusal? ==>
              executed != [] && o.run(executed[|executed| - 1], |executed| - 1) == Refused(why.code)
    ensures why.Generator? ==> o.regenerated == Raised(why.code)
    ensures why == ModelFailed ==> o.regenerated.Crashed? && o.template == None
  {
  }
}
