/** Keyset paging: the lists of conversations and of messages, read page by page. */
module Pagination {
  import opened Basics
  import opened Cursor

  /** The values a list is ordered by, both descending. */
  datatype Rank = Rank(major: int, minor: int)

  predicate Above(a: Rank, b: Rank) { a.major > b.major || (a.major == b.major && a.minor > b.minor) }

  predicate Ordered<T>(xs: seq<T>, rank: T -> Rank) {
    forall i, j :: 0 <= i < j < |xs| ==> Above(rank(xs[i]), rank(xs[j]))
  }

  predicate DistinctRanks<T>(xs: seq<T>, rank: T -> Rank) {
    forall i, j :: 0 <= i < j < |xs| ==> rank(xs[i]) != rank(xs[j])
  }

  // ---- the queries ----

  function Insert<T>(xs: seq<T>, x: T, rank: T -> Rank): seq<T> {
    if xs == [] then [x]
    else if Above(rank(x), rank(xs[|xs| - 1])) then Insert(xs[..|xs| - 1], x, rank) + [xs[|xs| - 1]]
    else xs + [x]
  }

  /** ORDER BY ... DESC */
  function OrderDesc<T>(rows: seq<T>, rank: T -> Rank): seq<T> {
    if rows == [] then [] else Insert(OrderDesc(rows[..|rows| - 1], rank), rows[|rows| - 1], rank)
  }

  predicate Past(cursor: Option<Rank>, r: Rank) { cursor.Some? ==> Above(cursor.value, r) }

  /** The rows past a cursor, in order. */
  function Rest<T>(rows: seq<T>, rank: T -> Rank, cursor: Option<Rank>): seq<T> {
    OrderDesc(Where(rows, (x: T) => Past(cursor, rank(x))), rank)
  }

  // ---- cursors ----

  /** How a list writes a rank into a cursor's JSON object and reads it back; None is a
      missing or malformed field. */
  datatype Codec<!P> = Codec(json: JsonText<P>, payload: Rank -> P, rank: P -> Option<Rank>)

  ghost predicate Reads<P(!new)>(codec: Codec<P>) {
    && Faithful(codec.json)
    && forall r ::
         && codec.json.isObject(codec.payload(r)) && codec.rank(codec.payload(r)) == Some(r)
         && codec.json.dumps(codec.payload(r)) != []
  }

  function TextOf<P>(codec: Codec<P>, cursor: Option<Rank>): Option<string> {
    match cursor
    case None => None
    case Some(r) => Some(EncodeCursor(codec.json, codec.payload(r)))
  }

  datatype Request = From(cursor: Option<Rank>) | InvalidCursor

  /** No cursor, or an empty one, asks for the first page. */
  function RequestOf<P>(codec: Codec<P>, text: Option<string>): Request {
    if text == None || text == Some("") then From(None)
    else
      match DecodeCursor(codec.json, text.value)
      case None => InvalidCursor
      case Some(payload) => if codec.rank(payload).Some? then From(codec.rank(payload)) else InvalidCursor
  }

  /** A cursor that was handed out asks for the rows past it. */
  lemma CursorAsks<P(!new)>(codec: Codec<P>, cursor: Option<Rank>)
    requires Reads(codec)
    ensures RequestOf(codec, TextOf(codec, cursor)) == From(cursor)
  {
    if cursor.Some? {
      var payload := codec.payload(cursor.value);
      DecodeInvertsEncodeCursor(codec.json, payload);
      EncodedNotEmpty(codec.json.dumps(payload));
    }
  }

  datatype Page<T> = Page(items: seq<T>, next: Option<string>) | Refused

  lemma FirstOfMore<T>(xs: seq<T>, limit: nat)
    ensures var found := First(xs, limit + 1);
      First(found, limit) == First(xs, limit) && (|found| > limit <==> |xs| > limit)
  {
  }

  /** One page: one row more than the limit tells whether there is another. */
  method ListPage<T, P>(codec: Codec<P>, rows: seq<T>, rank: T -> Rank, cursor: Option<string>, limit: nat)
    returns (page: Page<T>)
    ensures page.Refused? <==> RequestOf(codec, cursor).InvalidCursor?
    ensures page.Page? ==>
              var rest := Rest(rows, rank, RequestOf(codec, cursor).cursor);
              page.items == First(rest, limit)
              && page.next == TextOf(codec, if |rest| > limit > 0 then Some(rank(rest[limit - 1])) else None)
  {
    var request := RequestOf(codec, cursor);
    if request.InvalidCursor? { return Refused; }
    var found := First(Rest(rows, rank, request.cursor), limit + 1);
    var hasMore := |found| > limit;
    var items := First(found, limit);
    FirstOfMore(Rest(rows, rank, request.cursor), limit);
    var next := None;
    if hasMore && items != [] {
      var last := items[|items| - 1];
      next := Some(EncodeCursor(codec.json, codec.payload(rank(last))));
    }
    page := Page(items, next);
  }

  // ---- ordering ----

  lemma {:induction false} InsertMembers<T>(xs: seq<T>, x: T, rank: T -> Rank)
    ensures |Insert(xs, x, rank)| == |xs| + 1
    ensures forall i :: 0 <= i < |Insert(xs, x, rank)| ==> Insert(xs, x, rank)[i] in xs || Insert(xs, x, rank)[i] == x
    ensures multiset(Insert(xs, x, rank)) == multiset(xs) + multiset{x}
  {
    if xs != [] {
      var init, last := xs[..|xs| - 1], xs[|xs| - 1];
      assert xs == init + [last];
      if Above(rank(x), rank(last)) { InsertMembers(init, x, rank); }
    }
  }

  lemma {:induction false} InsertOrdered<T>(xs: seq<T>, x: T, rank: T -> Rank)
    requires Ordered(xs, rank) && forall i :: 0 <= i < |xs| ==> rank(xs[i]) != rank(x)
    ensures Ordered(Insert(xs, x, rank), rank)
  {
    if xs != [] && Above(rank(x), rank(xs[|xs| - 1])) {
      var init, last := xs[..|xs| - 1], xs[|xs| - 1];
      InsertOrdered(init, x, rank);
      InsertMembers(init, x, rank);
      var r := Insert(init, x, rank);
      forall i | 0 <= i < |r| ensures Above(rank(r[i]), rank(last)) {
        if r[i] in init {
          var j :| 0 <= j < |init| && init[j] == r[i];
          assert xs[j] == r[i];
        }
      }
    }
  }

  lemma {:induction false} OrderDescMultiset<T>(rows: seq<T>, rank: T -> Rank)
    ensures multiset(OrderDesc(rows, rank)) == multiset(rows)
  {
    if rows != [] {
      var init, last := rows[..|rows| - 1], rows[|rows| - 1];
      assert rows == init + [last];
      OrderDescMultiset(init, rank);
      InsertMembers(OrderDesc(init, rank), last, rank);
    }
  }

  lemma OrderDescIn<T>(rows: seq<T>, rank: T -> Rank, x: T)
    ensures x in OrderDesc(rows, rank) <==> x in rows
  {
    OrderDescMultiset(rows, rank);
    assert x in rows <==> x in multiset(rows);
    assert x in OrderDesc(rows, rank) <==> x in multiset(OrderDesc(rows, rank));
  }

  /** Rows of distinct rank come out strictly ordered, none lost or repeated. */
  lemma {:induction false} OrderDescOrders<T>(rows: seq<T>, rank: T -> Rank)
    requires DistinctRanks(rows, rank)
    ensures Ordered(OrderDesc(rows, rank), rank)
  {
    if rows != [] {
      var init, last := rows[..|rows| - 1], rows[|rows| - 1];
      OrderDescOrders(init, rank);
      var sorted := OrderDesc(init, rank);
      forall i | 0 <= i < |sorted| ensures rank(sorted[i]) != rank(last) {
        OrderDescIn(init, rank, sorted[i]);
        var j :| 0 <= j < |init| && init[j] == sorted[i];
        assert rows[j] == sorted[i];
      }
      InsertOrdered(sorted, last, rank);
    }
  }

  lemma {:induction false} WhereDistinct<T>(rows: seq<T>, p: T -> bool, rank: T -> Rank)
    requires DistinctRanks(rows, rank)
    ensures DistinctRanks(Where(rows, p), rank)
  {
    if rows != [] {
      var init, last := rows[..|rows| - 1], rows[|rows| - 1];
      WhereDistinct(init, p, rank);
      var kept := Where(init, p);
      forall i | 0 <= i < |kept| ensures rank(kept[i]) != rank(last) {
        WhereIn(init, p, kept[i]);
        var j :| 0 <= j < |init| && init[j] == kept[i];
        assert rows[j] == kept[i];
      }
    }
  }

  /** A strictly ordered list is determined by its members. */
  lemma {:induction false} OrderedUnique<T>(xs: seq<T>, ys: seq<T>, rank: T -> Rank)
    requires Ordered(xs, rank) && Ordered(ys, rank)
    ensures (forall x :: x in xs <==> x in ys) ==> xs == ys
  {
    if xs == [] || ys == [] {
      if xs != [] { assert xs[0] in xs; }
      if ys != [] { assert ys[0] in ys; }
    } else if forall x :: x in xs <==> x in ys {
      assert xs[0] in ys && ys[0] in xs;
      assert xs[0] == ys[0];
      forall x ensures x in xs[1..] <==> x in ys[1..] {
        SameTail(xs, ys, rank, x);
        SameTail(ys, xs, rank, x);
      }
      OrderedUnique(xs[1..], ys[1..], rank);
      assert xs == [xs[0]] + xs[1..] && ys == [ys[0]] + ys[1..];
    }
  }

  lemma SameTail<T>(xs: seq<T>, ys: seq<T>, rank: T -> Rank, x: T)
    requires xs != [] && ys != [] && xs[0] == ys[0] && Ordered(xs, rank) && (x in xs ==> x in ys)
    ensures x in xs[1..] ==> x in ys[1..]
  {
  }

  // ---- following the cursor ----

  lemma SuffixIn<T>(all: seq<T>, rank: T -> Rank, k: nat, x: T)
    requires Ordered(all, rank) && 0 < k <= |all|
    ensures x in all[k..] <==> x in all && Above(rank(all[k - 1]), rank(x))
  {
  }

  /** Past the k-th row of the list is exactly the rest of the list. */
  lemma PastIsRest<T>(rows: seq<T>, rank: T -> Rank, k: nat)
    requires DistinctRanks(rows, rank) && 0 < k <= |OrderDesc(rows, rank)|
    ensures Rest(rows, rank, Some(rank(OrderDesc(rows, rank)[k - 1]))) == OrderDesc(rows, rank)[k..]
  {
    var all := OrderDesc(rows, rank);
    var p := (x: T) => Past(Some(rank(all[k - 1])), rank(x));
    var rest := OrderDesc(Where(rows, p), rank);
    OrderDescOrders(rows, rank);
    WhereDistinct(rows, p, rank);
    OrderDescOrders(Where(rows, p), rank);
    forall x ensures x in rest <==> x in all[k..] {
      OrderDescIn(Where(rows, p), rank, x);
      WhereIn(rows, p, x);
      OrderDescIn(rows, rank, x);
      SuffixIn(all, rank, k, x);
    }
    OrderedUnique(rest, all[k..], rank);
  }

  lemma {:induction false} WhereAll<T>(rows: seq<T>, p: T -> bool)
    requires forall x :: p(x)
    ensures Where(rows, p) == rows
  {
    if rows != [] {
      WhereAll(rows[..|rows| - 1], p);
      assert rows == rows[..|rows| - 1] + [rows[|rows| - 1]];
    }
  }

  lemma {:induction false} StartIsAll<T>(rows: seq<T>, rank: T -> Rank)
    ensures Rest(rows, rank, None) == OrderDesc(rows, rank)
  {
    WhereAll(rows, (x: T) => Past(None, rank(x)));
  }

  /** The cursor after k rows of `all`: none at the end. */
  function CursorAt<T>(all: seq<T>, rank: T -> Rank, k: nat): Option<Rank>
    requires k <= |all|
  {
    if 0 < k < |all| then Some(rank(all[k - 1])) else None
  }

  /** Past the cursor after k rows is the rest of the list. */
  lemma RestAt<T>(rows: seq<T>, rank: T -> Rank, k: nat)
    requires DistinctRanks(rows, rank) && (k < |OrderDesc(rows, rank)| || k == 0)
    ensures Rest(rows, rank, CursorAt(OrderDesc(rows, rank), rank, k)) == OrderDesc(rows, rank)[k..]
  {
    if k == 0 { StartIsAll(rows, rank); } else { PastIsRest(rows, rank, k); }
  }

  /** `page` is the k-th to n-th row of the list, with the cursor after them. */
  predicate PageFrom<T(==), P>(codec: Codec<P>, all: seq<T>, rank: T -> Rank, k: nat, page: Page<T>) {
    && page.Page?
    && var n := k + |page.items|;
       && n <= |all| && page.items == all[k..n] && page.next == TextOf(codec, CursorAt(all, rank, n))
       && (if CursorAt(all, rank, n).Some? then k < n else n == |all|)
  }

  lemma PageOf<T, P>(codec: Codec<P>, all: seq<T>, rank: T -> Rank, k: nat, limit: nat, page: Page<T>)
    requires limit > 0 && k <= |all| && page.Page? && page.items == First(all[k..], limit)
    requires page.next == TextOf(codec, if |all[k..]| > limit then Some(rank(all[k..][limit - 1])) else None)
    ensures PageFrom(codec, all, rank, k, page)
  {
  }

  /** What a page adds to the k rows already read. */
  lemma PageAt<T, P(!new)>(codec: Codec<P>, rows: seq<T>, rank: T -> Rank, k: nat, limit: nat, page: Page<T>)
    requires Reads(codec) && DistinctRanks(rows, rank) && limit > 0
    requires k < |OrderDesc(rows, rank)| || k == 0
    requires var request := RequestOf(codec, TextOf(codec, CursorAt(OrderDesc(rows, rank), rank, k)));
      && (page.Refused? <==> request.InvalidCursor?)
      && (page.Page? ==>
            var rest := Rest(rows, rank, request.cursor);
            page.items == First(rest, limit)
            && page.next == TextOf(codec, if |rest| > limit > 0 then Some(rank(rest[limit - 1])) else None))
    ensures PageFrom(codec, OrderDesc(rows, rank), rank, k, page)
  {
    CursorAsks(codec, CursorAt(OrderDesc(rows, rank), rank, k));
    RestAt(rows, rank, k);
    PageOf(codec, OrderDesc(rows, rank), rank, k, limit, page);
  }

  /** The first rows of the list have been read, and the cursor asks for the others. */
  predicate ReadSoFar<T(==), P>(codec: Codec<P>, all: seq<T>, rank: T -> Rank, read: seq<T>, cursor: Option<string>,
                                done: bool) {
    && |read| <= |all| && read == all[..|read|] && cursor == TextOf(codec, CursorAt(all, rank, |read|))
    && (if done then |read| == |all| else |read| < |all| || read == [])
  }

  lemma ReadFurther<T, P>(codec: Codec<P>, all: seq<T>, rank: T -> Rank, read: seq<T>, page: Page<T>)
    requires |read| <= |all| && read == all[..|read|] && PageFrom(codec, all, rank, |read|, page)
    ensures ReadSoFar(codec, all, rank, read + page.items, page.next, page.next.None?)
    ensures page.next.None? || page.items != []
  {
  }

  method FollowAll<T, P(!new)>(codec: Codec<P>, rows: seq<T>, rank: T -> Rank, limit: nat) returns (visited: seq<T>)
    requires Reads(codec) && DistinctRanks(rows, rank) && limit > 0
    ensures visited == OrderDesc(rows, rank)
  {
    ghost var all := OrderDesc(rows, rank);
    var cursor: Option<string>, done := None, false;
    visited := [];
    while !done
      invariant ReadSoFar(codec, all, rank, visited, cursor, done)
      decreases !done, |all| - |visited|
    {
      var page := ListPage(codec, rows, rank, cursor, limit);
      PageAt(codec, rows, rank, |visited|, limit, page);
      ReadFurther(codec, all, rank, visited, page);
      visited, cursor, done := visited + page.items, page.next, page.next.None?;
    }
  }

  /** Following next_cursor from the first page until it is null ends, visits every row exactly
      once, in order, for any page limit, and is never refused. */
  method FollowCursor<T, P(!new)>(codec: Codec<P>, rows: seq<T>, rank: T -> Rank, limit: nat)
    returns (visited: seq<T>)
    requires Reads(codec) && DistinctRanks(rows, rank) && limit > 0
    ensures visited == OrderDesc(rows, rank)
    ensures Ordered(visited, rank) && multiset(visited) == multiset(rows)
  {
    visited := FollowAll(codec, rows, rank, limit);
    OrderDescOrders(rows, rank);
    OrderDescMultiset(rows, rank);
  }

  // ---- the two lists ----

  datatype Conversation = Conversation(id: nat, user: nat, status: string, updatedAt: nat)

  function ConversationRank(c: Conversation): Rank { Rank(c.updatedAt, c.id) }

  predicate Visible(c: Conversation, user: nat, status: Option<string>) {
    c.user == user && if status.Some? && status.value != "" then c.status == status.value else c.status != "deleted"
  }

  /** What a user's list may show: their own, of the status asked for, or not deleted. */
  predicate Asked(c: Conversation, user: nat, status: Option<string>) {
    c.user == user
    && (status == None || status == Some("") ==> c.status != "deleted")
    && (status.Some? && status.value != "" ==> c.status == status.value)
  }

  /** The conversations of one user, page by page: exactly those asked for, each as often as
      in the table, newest first and by id among those of one time. */
  method FollowConversations<P(!new)>(codec: Codec<P>, table: seq<Conversation>, user: nat, status: Option<string>,
                                      limit: nat)
    returns (visited: seq<Conversation>)
    requires Reads(codec) && limit > 0 && forall i, j :: 0 <= i < j < |table| ==> table[i].id != table[j].id
    ensures forall i, j :: 0 <= i < j < |visited| ==>
              visited[i].updatedAt > visited[j].updatedAt
              || (visited[i].updatedAt == visited[j].updatedAt && visited[i].id > visited[j].id)
    ensures forall c ::
              multiset(visited)[c] == if Asked(c, user, status) then multiset(table)[c] else 0
  {
    var visible := (c: Conversation) => Visible(c, user, status);
    var mine := Where(table, visible);
    WhereDistinct(table, visible, ConversationRank);
    visited := FollowCursor(codec, mine, ConversationRank, limit);
    forall c ensures multiset(visited)[c] == if Asked(c, user, status) then multiset(table)[c] else 0 {
      WhereCounts(table, visible, c);
    }
    forall i, j | 0 <= i < j < |visited|
      ensures visited[i].updatedAt > visited[j].updatedAt
           || (visited[i].updatedAt == visited[j].updatedAt && visited[i].id > visited[j].id)
    {
      assert Above(ConversationRank(visited[i]), ConversationRank(visited[j]));
    }
  }

  datatype StoredMessage = StoredMessage(conversation: nat, seqNo: nat)

  function MessageRank(m: StoredMessage): Rank { Rank(m.seqNo, 0) }

  /** Each page put, reversed, before what is already shown. */
  method FollowBackwards<T, P(!new)>(codec: Codec<P>, rows: seq<T>, rank: T -> Rank, limit: nat)
    returns (shown: seq<T>)
    requires Reads(codec) && limit > 0 && DistinctRanks(rows, rank)
    ensures Reversed(shown) == OrderDesc(rows, rank)
  {
    ghost var all := OrderDesc(rows, rank);
    var cursor: Option<string>, done := None, false;
    shown := [];
    while !done
      invariant ReadSoFar(codec, all, rank, Reversed(shown), cursor, done)
      decreases !done, |all| - |shown|
    {
      var page := ListPage(codec, rows, rank, cursor, limit);
      PageAt(codec, rows, rank, |shown|, limit, page);
      ReadFurther(codec, all, rank, Reversed(shown), page);
      ReversedConcat(page.items, shown);
      shown, cursor, done := Reversed(page.items) + shown, page.next, page.next.None?;
    }
  }

  lemma ReversedConcat<T>(a: seq<T>, b: seq<T>)
    ensures Reversed(Reversed(a) + b) == Reversed(b) + a
  {
  }

  lemma {:induction false} ReversedMultiset<T>(xs: seq<T>)
    ensures multiset(Reversed(xs)) == multiset(xs)
  {
    if xs != [] {
      assert xs == [xs[0]] + xs[1..];
      assert Reversed(xs) == Reversed(xs[1..]) + [xs[0]];
      ReversedMultiset(xs[1..]);
    }
  }

  /** Messages of one conversation come newest page first, each page oldest first: putting
      every page before those already shown gives all of them in order, and no others. */
  method FollowMessages<P(!new)>(codec: Codec<P>, table: seq<StoredMessage>, conversation: nat, limit: nat)
    returns (shown: seq<StoredMessage>)
    requires Reads(codec) && limit > 0
    requires forall i, j :: 0 <= i < j < |table| && table[i].conversation == table[j].conversation ==>
               table[i].seqNo != table[j].seqNo
    ensures forall i, j :: 0 <= i < j < |shown| ==> shown[i].seqNo < shown[j].seqNo
    ensures forall m :: multiset(shown)[m] == if m.conversation == conversation then multiset(table)[m] else 0
  {
    var here := (m: StoredMessage) => m.conversation == conversation;
    var messages := Where(table, here);
    WhereApart(table, conversation);
    shown := FollowBackwards(codec, messages, MessageRank, limit);
    OrderDescOrders(messages, MessageRank);
    OrderDescMultiset(messages, MessageRank);
    ReversedMultiset(shown);
    Ascending(shown, OrderDesc(messages, MessageRank));
    forall m ensures multiset(shown)[m] == if m.conversation == conversation then multiset(table)[m] else 0 {
      WhereCounts(table, here, m);
    }
  }

  lemma {:induction false} WhereApart(table: seq<StoredMessage>, conversation: nat)
    requires forall i, j :: 0 <= i < j < |table| && table[i].conversation == table[j].conversation ==>
               table[i].seqNo != table[j].seqNo
    ensures DistinctRanks(Where(table, (m: StoredMessage) => m.conversation == conversation), MessageRank)
  {
    var here := (m: StoredMessage) => m.conversation == conversation;
    if table != [] {
      var init, last := table[..|table| - 1], table[|table| - 1];
      WhereApart(init, conversation);
      var kept := Where(init, here);
      forall i | 0 <= i < |kept| && here(last) ensures MessageRank(kept[i]) != MessageRank(last) {
        WhereIn(init, here, kept[i]);
        var k :| 0 <= k < |init| && init[k] == kept[i];
        assert table[k] == kept[i];
      }
    }
  }

  lemma Ascending(shown: seq<StoredMessage>, all: seq<StoredMessage>)
    requires Reversed(shown) == all && Ordered(all, MessageRank)
    ensures forall i, j :: 0 <= i < j < |shown| ==> shown[i].seqNo < shown[j].seqNo
  {
    forall i, j | 0 <= i < j < |shown| ensures shown[i].seqNo < shown[j].seqNo {
      assert shown[i] == all[|shown| - 1 - i] && shown[j] == all[|shown| - 1 - j];
    }
  }
}
