/** How rows get their numbers: event_seq within a task and seq_no within a
    conversation.  A writer reads max() + 1 from a snapshot that may be older than
    the table it then inserts into; the UNIQUE constraint on (key, number) is what
    keeps the numbers of every key 1, 2, 3, ... in insertion order. */
module Numbering {
  datatype Row<P> = Row(key: nat, num: nat, payload: P)

  /** The rows of one key, in insertion order. */
  function Of<P>(table: seq<Row<P>>, k: nat): seq<Row<P>> {
    if table == [] then []
    else
      var init, last := table[..|table| - 1], table[|table| - 1];
      if last.key == k then Of(init, k) + [last] else Of(init, k)
  }

  /** SELECT max(num) WHERE key = k, with no row read as 0. */
  function MaxNum<P>(table: seq<Row<P>>, k: nat): nat {
    if table == [] then 0
    else
      var init, last := table[..|table| - 1], table[|table| - 1];
      if last.key == k && last.num > MaxNum(init, k) then last.num else MaxNum(init, k)
  }

  predicate Taken<P>(table: seq<Row<P>>, k: nat, num: nat) {
    exists i :: 0 <= i < |table| && table[i].key == k && table[i].num == num
  }

  /** Every key's rows carry exactly the numbers 1..n, in insertion order. */
  ghost predicate Contiguous<P>(table: seq<Row<P>>) {
    forall k: nat, i :: 0 <= i < |Of(table, k)| ==> Of(table, k)[i].num == i + 1
  }

  /** One transaction: `seen` rows were committed when its max() was read. */
  datatype Insert<P> = Insert(seen: nat, key: nat, payloads: seq<P>)

  function NewRows<P>(key: nat, first: nat, payloads: seq<P>): (rows: seq<Row<P>>)
    ensures |rows| == |payloads|
    ensures forall i :: 0 <= i < |rows| ==> rows[i] == Row(key, first + i, payloads[i])
  {
    seq(|payloads|, i requires 0 <= i < |payloads| => Row(key, first + i, payloads[i]))
  }

  function FirstNumber<P>(table: seq<Row<P>>, ins: Insert<P>): nat {
    MaxNum(if ins.seen <= |table| then table[..ins.seen] else table, ins.key) + 1
  }

  /** The UNIQUE constraint accepts all of the new rows. */
  predicate Commits<P>(table: seq<Row<P>>, ins: Insert<P>) {
    var first := FirstNumber(table, ins);
    forall num :: first <= num < first + |ins.payloads| ==> !Taken(table, ins.key, num)
  }

  function After<P>(table: seq<Row<P>>, ins: Insert<P>): seq<Row<P>> {
    if Commits(table, ins) then table + NewRows(ins.key, FirstNumber(table, ins), ins.payloads)
    else table
  }

  function AfterAll<P>(inserts: seq<Insert<P>>): seq<Row<P>> {
    if inserts == [] then []
    else After(AfterAll(inserts[..|inserts| - 1]), inserts[|inserts| - 1])
  }

  lemma {:induction false} OfConcat<P>(a: seq<Row<P>>, b: seq<Row<P>>, k: nat)
    ensures Of(a + b, k) == Of(a, k) + Of(b, k)
  {
    if b == [] {
      assert a + b == a;
    } else {
      var init := b[..|b| - 1];
      OfConcat(a, init, k);
      assert (a + b)[..|a + b| - 1] == a + init;
    }
  }

  lemma {:induction false} OfUniform<P>(rows: seq<Row<P>>, key: nat, k: nat)
    requires forall i :: 0 <= i < |rows| ==> rows[i].key == key
    ensures Of(rows, k) == if k == key then rows else []
  {
    if rows != [] {
      OfUniform(rows[..|rows| - 1], key, k);
      assert rows == rows[..|rows| - 1] + [rows[|rows| - 1]];
    }
  }

  /** In a contiguous table, max() is the number of rows and Taken is 1..max(). */
  lemma {:induction false} MaxIsCount<P>(table: seq<Row<P>>, k: nat)
    requires Contiguous(table)
    ensures MaxNum(table, k) == |Of(table, k)|
    ensures forall num: nat :: Taken(table, k, num) <==> 1 <= num <= MaxNum(table, k)
  {
    if table != [] {
      var init, last := table[..|table| - 1], table[|table| - 1];
      assert table == init + [last];
      forall j: nat ensures Of(table, j) == Of(init, j) + Of([last], j) { OfConcat(init, [last], j); }
      assert Contiguous(init) by {
        forall j: nat, i | 0 <= i < |Of(init, j)| ensures Of(init, j)[i].num == i + 1 {
          assert Of(init, j)[i] == Of(table, j)[i];
        }
      }
      MaxIsCount(init, k);
      if last.key == k {
        assert Of(table, k)[|Of(init, k)|] == last;
      }
      forall num: nat ensures Taken(table, k, num) <==> Taken(init, k, num) || (last.key == k && last.num == num) {
        if Taken(init, k, num) {
          var i :| 0 <= i < |init| && init[i].key == k && init[i].num == num;
          assert table[i] == init[i];
        }
        if last.key == k && last.num == num { assert table[|table| - 1] == last; }
      }
    }
  }

  /** An older snapshot of a contiguous table is contiguous. */
  lemma {:induction false} PrefixContiguous<P>(table: seq<Row<P>>, n: nat)
    requires Contiguous(table) && n <= |table|
    ensures Contiguous(table[..n])
  {
    assert table == table[..n] + table[n..];
    forall k: nat, i | 0 <= i < |Of(table[..n], k)| ensures Of(table[..n], k)[i].num == i + 1 {
      OfConcat(table[..n], table[n..], k);
      assert Of(table[..n], k)[i] == Of(table, k)[i];
    }
  }

  /** A transaction with something to insert commits exactly when no row of its key
      was added since its snapshot; otherwise it aborts on the UNIQUE constraint. */
  lemma CommitsIffFresh<P>(table: seq<Row<P>>, ins: Insert<P>)
    requires Contiguous(table) && ins.seen <= |table| && ins.payloads != []
    ensures Commits(table, ins) <==> Of(table[ins.seen..], ins.key) == []
  {
    PrefixContiguous(table, ins.seen);
    MaxIsCount(table, ins.key);
    MaxIsCount(table[..ins.seen], ins.key);
    assert table == table[..ins.seen] + table[ins.seen..];
    OfConcat(table[..ins.seen], table[ins.seen..], ins.key);
    var first := FirstNumber(table, ins);
    if Of(table[ins.seen..], ins.key) != [] {
      assert Taken(table, ins.key, first);
    }
  }

  /** A commit continues the numbering, whatever its snapshot was. */
  lemma CommitContinues<P>(table: seq<Row<P>>, ins: Insert<P>)
    requires Contiguous(table) && Commits(table, ins) && ins.payloads != []
    ensures FirstNumber(table, ins) == |Of(table, ins.key)| + 1
  {
    var seen := if ins.seen <= |table| then ins.seen else |table|;
    PrefixContiguous(table, seen);
    assert table[..|table|] == table;
    MaxIsCount(table, ins.key);
    MaxIsCount(table[..seen], ins.key);
    assert !Taken(table, ins.key, FirstNumber(table, ins));
    assert table == table[..seen] + table[seen..];
    OfConcat(table[..seen], table[seen..], ins.key);
  }

  lemma ContiguousAppend<P>(table: seq<Row<P>>, key: nat, payloads: seq<P>)
    requires Contiguous(table)
    ensures Contiguous(table + NewRows(key, |Of(table, key)| + 1, payloads))
  {
    var rows := NewRows(key, |Of(table, key)| + 1, payloads);
    forall k: nat, i | 0 <= i < |Of(table + rows, k)| ensures Of(table + rows, k)[i].num == i + 1 {
      OfConcat(table, rows, k);
      OfUniform(rows, key, k);
    }
  }

  /** No insert, however stale its snapshot, breaks the numbering of any key. */
  lemma InsertKeepsContiguous<P>(table: seq<Row<P>>, ins: Insert<P>)
    requires Contiguous(table)
    ensures Contiguous(After(table, ins))
  {
    if Commits(table, ins) {
      if ins.payloads != [] {
        CommitContinues(table, ins);
        ContiguousAppend(table, ins.key, ins.payloads);
      } else {
        assert After(table, ins) == table;
      }
    }
  }

  /** Over every sequence of transactions with arbitrary snapshots, the numbers of
      every key are 1..n without gap or repetition. */
  lemma {:induction false} NumbersNeverGap<P>(inserts: seq<Insert<P>>)
    ensures Contiguous(AfterAll(inserts))
  {
    if inserts != [] {
      NumbersNeverGap(inserts[..|inserts| - 1]);
      InsertKeepsContiguous(AfterAll(inserts[..|inserts| - 1]), inserts[|inserts| - 1]);
    }
  }

  /** The task_events table as append_many uses it. */
  class Table<P> {
    var rows: seq<Row<P>>

    constructor ()
      ensures rows == []
    {
      rows := [];
    }

    /** Numbers the payloads from the stale maximum on and flushes them together;
        false stands for the IntegrityError that rolls the transaction back. */
    method AppendMany(seen: nat, key: nat, payloads: seq<P>) returns (ok: bool)
      requires seen <= |rows|
      modifies this
      ensures rows == After(old(rows), Insert(seen, key, payloads))
      ensures ok == Commits(old(rows), Insert(seen, key, payloads))
      ensures !ok ==> rows == old(rows)
    {
      var first := 1;
      for i := 0 to seen
        invariant first == MaxNum(rows[..i], key) + 1
      {
        assert rows[..i + 1][..i] == rows[..i];
        if rows[i].key == key && rows[i].num >= first { first := rows[i].num + 1; }
      }
      var added := [];
      for offset := 0 to |payloads|
        invariant |added| == offset
        invariant forall i :: 0 <= i < offset ==> added[i] == Row(key, first + i, payloads[i])
        invariant forall num :: first <= num < first + offset ==> !Taken(rows, key, num)
        invariant rows == old(rows)
      {
        if Taken(rows, key, first + offset) { return false; }
        added := added + [Row(key, first + offset, payloads[offset])];
      }
      assert added == NewRows(key, first, payloads);
      rows := rows + added;
      ok := true;
    }
  }
}
