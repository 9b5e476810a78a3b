/** Repeated compression of a conversation, and what load_context reads of it. */
module Compression {
  import opened Basics
  import opened ContextSummary

  datatype SummaryRow = SummaryRow(start: nat, end: nat, version: nat, text: string)

  datatype Settings = Settings(messageThreshold: nat, charThreshold: nat, retain: nat)

  /** How a summary's text is made of the previous text and the messages it covers. */
  type Summariser = (Option<string>, seq<Message>) -> string

  datatype Rows = Rows(messages: seq<Message>, summaries: seq<SummaryRow>)

  // ---- queries ----

  /** ORDER BY end_seq_no DESC LIMIT 1 */
  function Latest(summaries: seq<SummaryRow>): Option<SummaryRow> {
    if summaries == [] then None
    else
      var last := summaries[|summaries| - 1];
      match Latest(summaries[..|summaries| - 1])
      case None => Some(last)
      case Some(row) => if last.end > row.end then Some(last) else Some(row)
  }

  function Covered(summaries: seq<SummaryRow>): nat {
    match Latest(summaries) case None => 0 case Some(row) => row.end
  }

  /** WHERE seq_no > covered, in order of seq_no. */
  function Newer(messages: seq<Message>, covered: nat): seq<Message> {
    if messages == [] then []
    else
      var last := messages[|messages| - 1];
      Newer(messages[..|messages| - 1], covered) + if last.seqNo > covered then [last] else []
  }

  function TotalChars(messages: seq<Message>): nat {
    if messages == [] then 0
    else TotalChars(messages[..|messages| - 1]) + |messages[|messages| - 1].content.GetOr("")|
  }

  /** messages[:-retain], and all of them when nothing is retained. */
  function Compressible(messages: seq<Message>, retain: nat): seq<Message> {
    if retain >= |messages| && retain > 0 then [] else messages[..|messages| - retain]
  }

  predicate Due(messages: seq<Message>, settings: Settings) {
    |messages| >= settings.messageThreshold || TotalChars(messages) >= settings.charThreshold
  }

  /** The messages the next summary covers, if one is due. */
  function Pending(rows: Rows, settings: Settings): seq<Message> {
    var messages := Newer(rows.messages, Covered(rows.summaries));
    if Due(messages, settings) then Compressible(messages, settings.retain) else []
  }

  function RowFor(f: Summariser, latest: Option<SummaryRow>, oldest: seq<Message>): SummaryRow
    requires oldest != []
  {
    match latest
    case None => SummaryRow(oldest[0].seqNo, oldest[|oldest| - 1].seqNo, 1, f(None, oldest))
    case Some(row) =>
      SummaryRow(oldest[0].seqNo, oldest[|oldest| - 1].seqNo, row.version + 1, f(Some(row.text), oldest))
  }

  function NextRow(f: Summariser, rows: Rows, settings: Settings): Option<SummaryRow> {
    var oldest := Pending(rows, settings);
    if oldest == [] then None else Some(RowFor(f, Latest(rows.summaries), oldest))
  }

  function Compressed(f: Summariser, rows: Rows, settings: Settings): Rows {
    match NextRow(f, rows, settings)
    case None => rows
    case Some(row) => rows.(summaries := rows.summaries + [row])
  }

  function WithMessage(rows: Rows, role: string, content: Option<string>): Rows {
    rows.(messages := rows.messages + [Message(|rows.messages| + 1, role, content)])
  }

  datatype Recent = Recent(seqNo: nat, role: string, content: string, clarification: bool)

  /** `answers` are the messages listed in the task's clarifications. */
  function RecentOf(m: Message, answers: set<nat>): Recent {
    var content := m.content.GetOr("");
    Recent(m.seqNo, m.role, if |content| > 4000 then content[..4000] else content, m.seqNo in answers)
  }

  /** What load_context reads of a message: its first 4000 characters, and whether it answers
      a question of the task. */
  predicate Reads(m: Message, answers: set<nat>, r: Recent) {
    && r.seqNo == m.seqNo && r.role == m.role && (r.clarification <==> m.seqNo in answers)
    && (m.content == None ==> r.content == "")
    && (m.content.Some? && |m.content.value| <= 4000 ==> r.content == m.content.value)
    && (m.content.Some? && |m.content.value| > 4000 ==> r.content == m.content.value[..4000])
  }

  /** ORDER BY seq_no DESC LIMIT limit */
  function NewestFirst(messages: seq<Message>, covered: nat, limit: nat): seq<Message> {
    var all := Reversed(Newer(messages, covered));
    if |all| <= limit then all else all[..limit]
  }

  method NewRow(latest: Option<SummaryRow>, oldest: seq<Message>) returns (row: SummaryRow)
    requires oldest != []
    ensures row == RowFor(Summary, latest, oldest)
  {
    var previous := if latest.Some? then Some(latest.value.text) else None;
    var text := BuildFactualSummary(previous, oldest);
    row := SummaryRow(oldest[0].seqNo, oldest[|oldest| - 1].seqNo,
                     if latest.Some? then latest.value.version + 1 else 1, text);
  }

  class Conversation {
    var messages: seq<Message>
    var summaries: seq<SummaryRow>

    function View(): Rows
      reads this
    {
      Rows(messages, summaries)
    }

    constructor ()
      ensures View() == Rows([], [])
    {
      messages, summaries := [], [];
    }

    method Say(role: string, content: Option<string>)
      modifies this`messages
      ensures View() == WithMessage(old(View()), role, content)
    {
      messages := messages + [Message(|messages| + 1, role, content)];
    }

    method CompressIfNeeded(settings: Settings) returns (row: Option<SummaryRow>)
      modifies this`summaries
      ensures View() == Compressed(Summary, old(View()), settings) && row == NextRow(Summary, old(View()), settings)
    {
      var oldest := FindPending(settings);
      if oldest == [] { return None; }
      var next := NewRow(Latest(summaries), oldest);
      row := Some(next);
      summaries := summaries + [next];
    }

    method FindPending(settings: Settings) returns (oldest: seq<Message>)
      ensures oldest == Pending(View(), settings)
    {
      var messages := Newer(messages, Covered(summaries));
      if |messages| < settings.messageThreshold && TotalChars(messages) < settings.charThreshold { return []; }
      oldest := Compressible(messages, settings.retain);
    }

    method LoadContext(limit: nat, answers: set<nat>) returns (summary: Option<string>, recent: seq<Recent>)
      ensures summary == match Latest(summaries) case None => None case Some(row) => Some(row.text)
      ensures var newest := Reversed(NewestFirst(messages, Covered(summaries), limit));
        |recent| == |newest| && forall i :: 0 <= i < |recent| ==> Reads(newest[i], answers, recent[i])
    {
      var latest := Latest(summaries);
      summary := match latest case None => None case Some(row) => Some(row.text);
      var rows := Reversed(NewestFirst(messages, Covered(summaries), limit));
      recent := [];
      for i := 0 to |rows|
        invariant |recent| == i && forall k :: 0 <= k < i ==> Reads(rows[k], answers, recent[k])
      {
        recent := recent + [RecentOf(rows[i], answers)];
      }
    }
  }

  // ---- every run tiles ----

  predicate Numbered(messages: seq<Message>) { forall i :: 0 <= i < |messages| ==> messages[i].seqNo == i + 1 }

  function EndBefore(summaries: seq<SummaryRow>, i: nat): nat
    requires i <= |summaries|
  {
    if i == 0 then 0 else summaries[i - 1].end
  }

  /** Row i begins where row i - 1 ends, is version i + 1, and summarises its messages on
      top of the text before. */
  predicate Continues(f: Summariser, rows: Rows, i: nat)
    requires i < |rows.summaries|
  {
    var row, from := rows.summaries[i], EndBefore(rows.summaries, i);
    && row.start == from + 1 && from < row.end <= |rows.messages| && row.version == i + 1
    && row.text == f(if i == 0 then None else Some(rows.summaries[i - 1].text), rows.messages[from..row.end])
  }

  predicate Tiled(f: Summariser, rows: Rows) {
    Numbered(rows.messages) && forall i :: 0 <= i < |rows.summaries| ==> Continues(f, rows, i)
  }

  lemma {:induction false} LatestIsLast(f: Summariser, rows: Rows)
    requires Tiled(f, rows)
    ensures Latest(rows.summaries) ==
            if rows.summaries == [] then None else Some(rows.summaries[|rows.summaries| - 1])
    ensures Covered(rows.summaries) == EndBefore(rows.summaries, |rows.summaries|) <= |rows.messages|
    decreases |rows.summaries|
  {
    if rows.summaries != [] {
      var init := rows.(summaries := rows.summaries[..|rows.summaries| - 1]);
      forall i | 0 <= i < |init.summaries| ensures Continues(f, init, i) { assert Continues(f, rows, i); }
      LatestIsLast(f, init);
      assert Continues(f, rows, |rows.summaries| - 1);
    }
  }

  lemma {:induction false} NewerIsSuffix(messages: seq<Message>, covered: nat)
    requires Numbered(messages)
    ensures Newer(messages, covered) == if covered <= |messages| then messages[covered..] else []
  {
    if messages != [] {
      NewerIsSuffix(messages[..|messages| - 1], covered);
      if covered < |messages| {
        assert messages[covered..] == messages[..|messages| - 1][covered..] + [messages[|messages| - 1]];
      }
    }
  }

  lemma PendingIs(f: Summariser, rows: Rows, settings: Settings)
    requires Tiled(f, rows)
    ensures var covered, n := Covered(rows.summaries), |rows.messages|;
      && covered <= n
      && Pending(rows, settings) ==
         if covered + settings.retain < n && Due(rows.messages[covered..], settings)
         then rows.messages[covered..n - settings.retain]
         else []
  {
    LatestIsLast(f, rows);
    NewerIsSuffix(rows.messages, Covered(rows.summaries));
    var covered, n := Covered(rows.summaries), |rows.messages|;
    if covered + settings.retain < n {
      assert rows.messages[covered..][..n - settings.retain - covered] == rows.messages[covered..n - settings.retain];
    }
  }

  /** A compression happens exactly when the uncovered messages reach the threshold in number
      or in characters and are more than `retain`; it covers all but the newest `retain`. */
  lemma CompressionRetainsNewest(f: Summariser, rows: Rows, settings: Settings)
    requires Tiled(f, rows)
    ensures var covered, n, row := Covered(rows.summaries), |rows.messages|, NextRow(f, rows, settings);
      && covered <= n
      && (row.Some? <==>
            && covered + settings.retain < n
            && (n - covered >= settings.messageThreshold
                || TotalChars(rows.messages[covered..]) >= settings.charThreshold))
      && (row.Some? ==> row.value.start == covered + 1 && row.value.end == n - settings.retain)
  {
    PendingIs(f, rows, settings);
  }

  lemma NewestLeft(f: Summariser, rows: Rows, settings: Settings)
    requires Tiled(f, rows) && NextRow(f, rows, settings).Some?
    ensures settings.retain <= |rows.messages|
    ensures var after := Compressed(f, rows, settings);
      Newer(after.messages, Covered(after.summaries)) == rows.messages[|rows.messages| - settings.retain..]
  {
    CompressionRetainsNewest(f, rows, settings);
    CompressionTiles(f, rows, settings);
    LatestIsLast(f, Compressed(f, rows, settings));
    NewerIsSuffix(rows.messages, |rows.messages| - settings.retain);
  }

  lemma CompressionTiles(f: Summariser, rows: Rows, settings: Settings)
    requires Tiled(f, rows)
    ensures Tiled(f, Compressed(f, rows, settings))
  {
    LatestIsLast(f, rows);
    PendingIs(f, rows, settings);
    var after := Compressed(f, rows, settings);
    if NextRow(f, rows, settings).Some? {
      forall i | 0 <= i < |after.summaries| ensures Continues(f, after, i) {
        if i < |rows.summaries| { assert Continues(f, rows, i); }
        if 0 < i == |rows.summaries| { assert Continues(f, rows, i - 1); }
      }
    }
  }

  lemma MessageTiles(f: Summariser, rows: Rows, role: string, content: Option<string>)
    requires Tiled(f, rows)
    ensures Tiled(f, WithMessage(rows, role, content))
  {
    var after := WithMessage(rows, role, content);
    forall i | 0 <= i < |after.summaries| ensures Continues(f, after, i) {
      assert Continues(f, rows, i);
      var from, end := EndBefore(rows.summaries, i), rows.summaries[i].end;
      assert after.messages[from..end] == rows.messages[from..end];
    }
  }

  datatype Happening = Said(role: string, content: Option<string>) | CompressionRun(settings: Settings)

  function History(f: Summariser, happenings: seq<Happening>): Rows {
    if happenings == [] then Rows([], [])
    else
      var before := History(f, happenings[..|happenings| - 1]);
      match happenings[|happenings| - 1]
      case Said(role, content) => WithMessage(before, role, content)
      case CompressionRun(settings) => Compressed(f, before, settings)
  }

  /** Over every history of messages and compressions, under whatever settings, the summary
      intervals tile 1..k without gap or overlap and the versions count 1, 2, 3, ... */
  lemma {:induction false} HistoryTiles(f: Summariser, happenings: seq<Happening>)
    ensures Tiled(f, History(f, happenings))
  {
    if happenings != [] {
      var before := History(f, happenings[..|happenings| - 1]);
      HistoryTiles(f, happenings[..|happenings| - 1]);
      match happenings[|happenings| - 1]
      case Said(role, content) => MessageTiles(f, before, role, content);
      case CompressionRun(settings) => CompressionTiles(f, before, settings);
    }
  }

  predicate In(row: SummaryRow, seqNo: nat) { row.start <= seqNo <= row.end }

  /** Each covered message is in exactly one summary. */
  lemma {:induction false} CoveredOnce(f: Summariser, rows: Rows, seqNo: nat)
    requires Tiled(f, rows)
    ensures 1 <= seqNo <= Covered(rows.summaries) <==>
              exists i :: 0 <= i < |rows.summaries| && In(rows.summaries[i], seqNo)
    ensures forall i, j :: 0 <= i < j < |rows.summaries| ==>
              !(In(rows.summaries[i], seqNo) && In(rows.summaries[j], seqNo))
    decreases |rows.summaries|
  {
    LatestIsLast(f, rows);
    if rows.summaries != [] {
      var n := |rows.summaries| - 1;
      var init := rows.(summaries := rows.summaries[..n]);
      forall i | 0 <= i < n ensures Continues(f, init, i) { assert Continues(f, rows, i); }
      CoveredOnce(f, init, seqNo);
      LatestIsLast(f, init);
      assert Continues(f, rows, n);
      assert forall i :: 0 <= i < n ==> init.summaries[i] == rows.summaries[i];
      if In(rows.summaries[n], seqNo) {
        assert !(1 <= seqNo <= Covered(init.summaries));
      }
    }
  }

  lemma NewestReversed<T>(xs: seq<T>, limit: nat, newest: seq<T>)
    requires newest == if |xs| <= limit then Reversed(xs) else Reversed(xs)[..limit]
    ensures |newest| == Min(limit, |xs|) && Reversed(newest) == xs[|xs| - |newest|..]
  {
  }

  lemma DropTwice<T>(xs: seq<T>, i: nat, j: nat)
    requires i + j <= |xs|
    ensures xs[i..][j..] == xs[i + j..]
  {
  }

  /** What is loaded is the newest of exactly the uncovered messages, oldest first. */
  predicate LoadsUncovered(rows: Rows, limit: nat) {
    var covered, n := Covered(rows.summaries), |rows.messages|;
    var recent := Reversed(NewestFirst(rows.messages, covered, limit));
    && covered <= n && |recent| == Min(limit, n - covered)
    && recent == rows.messages[n - |recent|..]
  }

  lemma TiledLoadsUncovered(f: Summariser, rows: Rows, limit: nat)
    requires Tiled(f, rows)
    ensures LoadsUncovered(rows, limit)
  {
    var covered, n := Covered(rows.summaries), |rows.messages|;
    LatestIsLast(f, rows);
    NewerIsSuffix(rows.messages, covered);
    NewestReversed(rows.messages[covered..], limit, NewestFirst(rows.messages, covered, limit));
    DropTwice(rows.messages, covered, n - covered - Min(limit, n - covered));
  }

  /** After any history, load_context returns a suffix of exactly the uncovered messages. */
  lemma ContextIsUncoveredSuffix(f: Summariser, happenings: seq<Happening>, limit: nat)
    ensures LoadsUncovered(History(f, happenings), limit)
  {
    HistoryTiles(f, happenings);
    TiledLoadsUncovered(f, History(f, happenings), limit);
  }
}
