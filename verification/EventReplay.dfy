/** Reading a task's event log back by pages. */
module EventReplay {
  import opened Basics
  import opened Numbering

  /** WHERE event_seq > after ORDER BY event_seq LIMIT limit, over one task's rows. */
  function Later<P>(rows: seq<Row<P>>, after: nat): seq<Row<P>> {
    if rows == [] then []
    else
      var last := rows[|rows| - 1];
      Later(rows[..|rows| - 1], after) + if last.num > after then [last] else []
  }

  function Page<P>(rows: seq<Row<P>>, after: nat, limit: nat): seq<Row<P>> {
    var found := Later(rows, after);
    if |found| <= limit then found else found[..limit]
  }

  datatype EventList<P> = EventList(items: seq<Row<P>>, lastEventSeq: nat)

  function ListOwned<P>(rows: seq<Row<P>>, after: nat, limit: nat): EventList<P> {
    var items := Page(rows, after, limit);
    EventList(items, if items != [] then items[|items| - 1].num else after)
  }

  predicate Numbered<P>(rows: seq<Row<P>>) { forall i :: 0 <= i < |rows| ==> rows[i].num == i + 1 }

  lemma {:induction false} LaterIsSuffix<P>(rows: seq<Row<P>>, after: nat)
    requires Numbered(rows)
    ensures Later(rows, after) == if after <= |rows| then rows[after..] else []
  {
    if rows != [] {
      LaterIsSuffix(rows[..|rows| - 1], after);
      if after < |rows| { assert rows[after..] == rows[..|rows| - 1][after..] + [rows[|rows| - 1]]; }
    }
  }

  lemma PageIs<P>(rows: seq<Row<P>>, after: nat, limit: nat)
    requires Numbered(rows)
    ensures var list := ListOwned(rows, after, limit);
      if after <= |rows| then
        list.lastEventSeq == Min(after + limit, |rows|) && list.items == rows[after..list.lastEventSeq]
      else
        list.lastEventSeq == after && list.items == []
  {
    LaterIsSuffix(rows, after);
    if after + limit <= |rows| { assert rows[after..][..limit] == rows[after..after + limit]; }
  }

  /** Calling again with after_seq = last_event_seq, until a page comes back empty, reads
      exactly the events after the first one asked for, for any page limit. */
  method ReadAll<P>(rows: seq<Row<P>>, after: nat, limit: nat) returns (all: seq<Row<P>>)
    requires Numbered(rows) && limit > 0
    ensures all == if after <= |rows| then rows[after..] else []
  {
    all := [];
    var at, done := after, false;
    while !done
      invariant if after <= |rows| then after <= at <= |rows| && all == rows[after..at] else at == after && all == []
      invariant done ==> at >= |rows|
      decreases !done, |rows| - at
    {
      PageIs(rows, at, limit);
      var page := ListOwned(rows, at, limit);
      all := all + page.items;
      at := page.lastEventSeq;
      done := page.items == [];
    }
  }

  /** Reading in two goes is reading once: a reconnecting client misses nothing. */
  lemma ResumeIsContinue<P>(rows: seq<Row<P>>, after: nat, limit: nat, more: nat)
    requires Numbered(rows)
    ensures var first := ListOwned(rows, after, limit);
      first.items + ListOwned(rows, first.lastEventSeq, more).items
        == ListOwned(rows, after, |first.items| + more).items
  {
    PageIs(rows, after, limit);
    var first := ListOwned(rows, after, limit);
    var mid := first.lastEventSeq;
    PageIs(rows, mid, more);
    PageIs(rows, after, |first.items| + more);
    if after <= |rows| { SlicesJoin(rows, after, mid, Min(mid + more, |rows|)); }
  }

  lemma SlicesJoin<T>(xs: seq<T>, a: nat, b: nat, c: nat)
    requires a <= b <= c <= |xs|
    ensures xs[a..b] + xs[b..c] == xs[a..c]
  {
  }
}
