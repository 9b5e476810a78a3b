/** The factual summary of older messages: how its character budget is shared out, and
    which lines it is made of. */
module ContextSummary {
  import opened Basics
  import opened Decimal

  const SUMMARY_MAX := 12000
  const PREVIOUS_MAX := 4000
  const PREVIOUS_LABEL := "既有摘要："
  const MARKER := "…[已压缩]…"

  datatype Message = Message(seqNo: nat, role: string, content: Option<string>)

  // ---- text ----

  /** What str.strip() strips. */
  predicate Space(c: char) {
    || c in "\t\n\r " || c == '\U{b}' || c == '\U{c}' || ('\U{1c}' <= c <= '\U{1f}') || c == '\U{85}' || c == '\U{a0}'
    || c == '\U{1680}' || ('\U{2000}' <= c <= '\U{200a}') || c == '\U{2028}' || c == '\U{2029}' || c == '\U{202f}'
    || c == '\U{205f}' || c == '\U{3000}'
  }

  function Strip(s: string): string {
    if s == "" then ""
    else if Space(s[0]) then Strip(s[1..])
    else if Space(s[|s| - 1]) then Strip(s[..|s| - 1])
    else s
  }

  function OneLine(s: string): (r: string)
    ensures |r| == |s| && '\n' !in r
  {
    seq(|s|, i requires 0 <= i < |s| => if s[i] == '\n' then ' ' else s[i])
  }

  function RoleLabel(role: string): string {
    if role == "user" then "用户" else if role == "assistant" then "分析助手" else role
  }

  function Prefix(m: Message): string { RoleLabel(m.role) + "[" + Digits(m.seqNo) + "]：" }

  function Content(m: Message): string { OneLine(Strip(m.content.GetOr(""))) }

  function Compact(value: string, budget: int): string {
    if budget <= 0 then ""
    else if |value| <= budget then value
    else if budget <= |MARKER| then MARKER[..budget]
    else
      var remaining := budget - |MARKER|;
      var head := (remaining + 1) / 2;
      var tail := remaining - head;
      value[..head] + MARKER + if tail > 0 then value[|value| - tail..] else ""
  }

  /** `text` is the beginning and the end of a longer value around the marker, the halves
      even to within one character. */
  predicate CutTo(value: string, budget: int, text: string, head: int, tail: int) {
    && 0 <= tail <= head <= tail + 1 && head + tail + |MARKER| == budget && budget < |value|
    && text == value[..head] + MARKER + value[|value| - tail..]
  }

  lemma MarkerLength()
    ensures |MARKER| == 7 && '\n' !in MARKER
    ensures |PREVIOUS_LABEL| == 5
  {
  }

  /** Compacting meets its budget exactly, never overruns it, and leaves a text alone that
      fits; a text cut around the marker keeps its beginning and its end. */
  lemma CompactMeetsBudget(value: string, budget: int)
    ensures |Compact(value, budget)| == Min(|value|, Max(budget, 0))
    ensures |value| <= budget ==> Compact(value, budget) == value
    ensures '\n' !in value ==> '\n' !in Compact(value, budget)
    ensures |MARKER| < budget < |value| ==>
              exists head, tail :: CutTo(value, budget, Compact(value, budget), head, tail)
  {
    MarkerLength();
    if |MARKER| < budget < |value| {
      var remaining := budget - |MARKER|;
      var head := (remaining + 1) / 2;
      var tail := remaining - head;
      assert value[|value| - tail..] == if tail > 0 then value[|value| - tail..] else "";
      assert CutTo(value, budget, Compact(value, budget), head, tail);
    }
  }

  // ---- budgets ----

  function PrefixChars(messages: seq<Message>): nat {
    if messages == [] then 0 else PrefixChars(messages[..|messages| - 1]) + |Prefix(messages[|messages| - 1])|
  }

  /** The characters of separators, prefixes and label. */
  function Required(previous: Option<string>, messages: seq<Message>): nat {
    Max(0, |messages| + (if previous.Some? then 1 else 0) - 1) + PrefixChars(messages)
    + if previous.Some? then |PREVIOUS_LABEL| else 0
  }

  function Budget(previous: Option<string>, messages: seq<Message>): nat {
    Max(0, SUMMARY_MAX - Required(previous, messages))
  }

  function PreviousBudget(previous: Option<string>, messages: seq<Message>): nat {
    Min(PREVIOUS_MAX, Budget(previous, messages) / 3)
  }

  function PreviousText(previous: Option<string>, messages: seq<Message>): (r: string)
    ensures |r| == if previous.Some? then Min(|previous.value|, PreviousBudget(previous, messages)) else 0
  {
    match previous
    case None => ""
    case Some(text) =>
      CompactMeetsBudget(text, PreviousBudget(previous, messages));
      Compact(text, PreviousBudget(previous, messages))
  }

  /** What is left for the messages. */
  function Left(previous: Option<string>, messages: seq<Message>): nat {
    Budget(previous, messages) - |PreviousText(previous, messages)|
  }

  /** The i-th of n shares of a budget. */
  function Share(budget: nat, n: nat, i: nat): nat
    requires n > 0
  {
    budget / n + if i < budget % n then 1 else 0
  }

  function Shares(budget: nat, n: nat): (r: seq<nat>)
    ensures |r| == n && forall i :: 0 <= i < n ==> r[i] == Share(budget, n, i)
  {
    seq(n, i requires 0 <= i < n => Share(budget, n, i))
  }

  function Sum(xs: seq<nat>, k: nat): nat
    requires k <= |xs|
  {
    if k == 0 then 0 else Sum(xs, k - 1) + xs[k - 1]
  }

  lemma {:induction false} EvenSum(xs: seq<nat>, q: nat, r: nat, k: nat)
    requires k <= |xs| && forall i :: 0 <= i < |xs| ==> xs[i] == q + if i < r then 1 else 0
    ensures Sum(xs, k) == k * q + Min(k, r)
  {
    if k > 0 {
      EvenSum(xs, q, r, k - 1);
      assert (k - 1) * q + q == k * q;
    }
  }

  /** The shares are even to within one character and use up the budget. */
  lemma SharesSumToBudget(budget: nat, n: nat)
    requires n > 0
    ensures Sum(Shares(budget, n), n) == budget
    ensures forall i, j :: 0 <= i < j < n ==> 0 <= Shares(budget, n)[i] - Shares(budget, n)[j] <= 1
  {
    EvenSum(Shares(budget, n), budget / n, budget % n, n);
  }

  // ---- the summary ----

  function MessageLine(m: Message, budget: nat): string { Prefix(m) + Compact(Content(m), budget) }

  function MessageLines(messages: seq<Message>, left: nat): (r: seq<string>)
    ensures |r| == |messages|
    ensures forall i :: 0 <= i < |r| ==> r[i] == MessageLine(messages[i], Shares(left, |messages|)[i])
  {
    var shares := Shares(left, |messages|);
    seq(|messages|, i requires 0 <= i < |messages| => MessageLine(messages[i], shares[i]))
  }

  function PreviousLine(previous: Option<string>, messages: seq<Message>): seq<string> {
    if previous.Some? then [PREVIOUS_LABEL + PreviousText(previous, messages)] else []
  }

  function Join(lines: seq<string>): string {
    if lines == [] then ""
    else if |lines| == 1 then lines[0]
    else Join(lines[..|lines| - 1]) + "\n" + lines[|lines| - 1]
  }

  function Summary(previous: Option<string>, messages: seq<Message>): string {
    Join(PreviousLine(previous, messages) + MessageLines(messages, Left(previous, messages)))
  }

  method CompactText(value: string, budget: int) returns (text: string)
    ensures text == Compact(value, budget)
  {
    if budget <= 0 { return ""; }
    if |value| <= budget { return value; }
    var marker := MARKER;
    if budget <= |marker| { return marker[..budget]; }
    var remaining := budget - |marker|;
    var head := (remaining + 1) / 2;
    var tail := remaining - head;
    text := value[..head] + marker + if tail > 0 then value[|value| - tail..] else "";
  }

  function Entry(m: Message): (string, string) { (Prefix(m), Content(m)) }

  method Entries(messages: seq<Message>) returns (entries: seq<(string, string)>, prefixChars: nat)
    ensures entries == Map(messages, Entry) && prefixChars == PrefixChars(messages)
  {
    entries, prefixChars := [], 0;
    for i := 0 to |messages|
      invariant entries == Map(messages[..i], Entry)
      invariant prefixChars == PrefixChars(messages[..i])
    {
      assert messages[..i + 1][..i] == messages[..i];
      MapSnoc(messages[..i + 1], Entry);
      entries := entries + [(Prefix(messages[i]), Content(messages[i]))];
      prefixChars := prefixChars + |Prefix(messages[i])|;
    }
    assert messages[..|messages|] == messages;
  }

  function EntryLines(entries: seq<(string, string)>, perMessage: nat, remainder: nat): (lines: seq<string>)
    ensures |lines| == |entries|
    ensures forall k :: 0 <= k < |lines| ==>
              lines[k] == entries[k].0 + Compact(entries[k].1, perMessage + if k < remainder then 1 else 0)
  {
    seq(|entries|, k requires 0 <= k < |entries| =>
      entries[k].0 + Compact(entries[k].1, perMessage + if k < remainder then 1 else 0))
  }

  method AppendLines(lines: seq<string>, entries: seq<(string, string)>, perMessage: nat, remainder: nat)
    returns (out: seq<string>)
    ensures out == lines + EntryLines(entries, perMessage, remainder)
  {
    out := lines;
    ghost var added := EntryLines(entries, perMessage, remainder);
    for i := 0 to |entries|
      invariant out == lines + added[..i]
    {
      var text := CompactText(entries[i].1, perMessage + if i < remainder then 1 else 0);
      out := out + [entries[i].0 + text];
    }
  }

  /** The first line, and the budget the previous text leaves. */
  method StartLines(previous: Option<string>, messages: seq<Message>, requiredChars: nat)
    returns (lines: seq<string>, left: nat)
    requires requiredChars == Required(previous, messages)
    ensures lines == PreviousLine(previous, messages) && left == Left(previous, messages)
  {
    left := Max(0, SUMMARY_MAX - requiredChars);
    lines := [];
    if previous.Some? {
      var text := CompactText(previous.value, Min(PREVIOUS_MAX, left / 3));
      left := left - |text|;
      lines := [PREVIOUS_LABEL + text];
    }
  }

  /** The lines of the messages, each within its share of the budget. */
  method ShareOut(lines: seq<string>, messages: seq<Message>, entries: seq<(string, string)>, budget: nat)
    returns (out: seq<string>)
    requires entries == Map(messages, Entry)
    ensures out == lines + MessageLines(messages, budget)
  {
    var perMessage := if entries != [] then budget / |entries| else 0;
    var remainder := if entries != [] then budget % |entries| else 0;
    out := AppendLines(lines, entries, perMessage, remainder);
    SameLines(messages, entries, budget, perMessage, remainder);
  }

  lemma SameLines(messages: seq<Message>, entries: seq<(string, string)>, budget: nat, q: nat, r: nat)
    requires entries == Map(messages, Entry)
    requires entries != [] ==> q == budget / |entries| && r == budget % |entries|
    ensures EntryLines(entries, q, r) == MessageLines(messages, budget)
  {
    var added := MessageLines(messages, budget);
    forall k | 0 <= k < |added| ensures EntryLines(entries, q, r)[k] == added[k] {
      assert Shares(budget, |messages|)[k] == q + if k < r then 1 else 0;
      assert entries[k] == (Prefix(messages[k]), Content(messages[k]));
    }
  }

  // ---- its length ----

  function Chars(lines: seq<string>): nat {
    if lines == [] then 0 else Chars(lines[..|lines| - 1]) + |lines[|lines| - 1]|
  }

  lemma {:induction false} JoinLength(lines: seq<string>)
    ensures |Join(lines)| == Chars(lines) + Max(0, |lines| - 1)
  {
    if |lines| == 1 {
      assert lines[..0] == [];
    } else if lines != [] {
      JoinLength(lines[..|lines| - 1]);
    }
  }

  lemma {:induction false} CharsConcat(a: seq<string>, b: seq<string>)
    ensures Chars(a + b) == Chars(a) + Chars(b)
  {
    if b == [] {
      assert a + b == a;
    } else {
      CharsConcat(a, b[..|b| - 1]);
      assert (a + b)[..|a + b| - 1] == a + b[..|b| - 1];
    }
  }

  /** The characters of message text that fit their shares, over the first k messages. */
  function KeptChars(messages: seq<Message>, shares: seq<nat>, k: nat): nat
    requires k <= |messages| == |shares|
  {
    if k == 0 then 0
    else KeptChars(messages, shares, k - 1) + Min(|Content(messages[k - 1])|, shares[k - 1])
  }

  lemma LineLength(m: Message, budget: nat)
    ensures |MessageLine(m, budget)| == |Prefix(m)| + Min(|Content(m)|, budget)
  {
  }

  lemma {:induction false} LineChars(messages: seq<Message>, shares: seq<nat>, lines: seq<string>, k: nat)
    requires k <= |messages| == |shares| == |lines|
    requires forall i :: 0 <= i < |lines| ==>
               |lines[i]| == |Prefix(messages[i])| + Min(|Content(messages[i])|, shares[i])
    ensures Chars(lines[..k]) == PrefixChars(messages[..k]) + KeptChars(messages, shares, k)
  {
    if k > 0 {
      LineChars(messages, shares, lines, k - 1);
      assert lines[..k][..k - 1] == lines[..k - 1] && messages[..k][..k - 1] == messages[..k - 1];
    }
  }

  /** The summary is its fixed characters, the previous text and what fits of each message. */
  lemma SummaryLength(previous: Option<string>, messages: seq<Message>)
    ensures |Summary(previous, messages)| ==
            Required(previous, messages) + |PreviousText(previous, messages)|
            + KeptChars(messages, Shares(Left(previous, messages), |messages|), |messages|)
  {
    var left := Left(previous, messages);
    var head, lines, shares := PreviousLine(previous, messages), MessageLines(messages, left), Shares(left, |messages|);
    forall i | 0 <= i < |lines| ensures |lines[i]| == |Prefix(messages[i])| + Min(|Content(messages[i])|, shares[i]) {
      LineLength(messages[i], shares[i]);
    }
    JoinLength(head + lines);
    CharsConcat(head, lines);
    LineChars(messages, shares, lines, |messages|);
    assert lines[..|messages|] == lines && messages[..|messages|] == messages;
    if previous.Some? { assert head[..0] == []; }
  }

  predicate Overflows(messages: seq<Message>, shares: seq<nat>, k: nat)
    requires k <= |messages| == |shares|
  {
    forall i :: 0 <= i < k ==> |Content(messages[i])| >= shares[i]
  }

  lemma {:induction false} KeptAtMostShares(messages: seq<Message>, shares: seq<nat>, k: nat)
    requires k <= |messages| == |shares|
    ensures KeptChars(messages, shares, k) <= Sum(shares, k)
    ensures KeptChars(messages, shares, k) == Sum(shares, k) <==> Overflows(messages, shares, k)
  {
    if k > 0 {
      KeptAtMostShares(messages, shares, k - 1);
      assert Overflows(messages, shares, k) <==>
             Overflows(messages, shares, k - 1) && |Content(messages[k - 1])| >= shares[k - 1];
    }
  }

  /** The summary is never longer than 12000 characters, or its fixed characters if those
      are more already. */
  lemma SummaryBounded(previous: Option<string>, messages: seq<Message>)
    requires messages != []
    ensures |Summary(previous, messages)| <= Max(SUMMARY_MAX, Required(previous, messages))
  {
    var left := Left(previous, messages);
    SummaryLength(previous, messages);
    KeptAtMostShares(messages, Shares(left, |messages|), |messages|);
    SharesSumToBudget(left, |messages|);
  }

  /** When the fixed characters fit, it fills the 12000 exactly if and only if every
      message overflows its share of what the previous summary leaves. */
  lemma SummaryFullIff(previous: Option<string>, messages: seq<Message>)
    requires messages != [] && Required(previous, messages) <= SUMMARY_MAX
    ensures |Summary(previous, messages)| == SUMMARY_MAX <==>
            Overflows(messages, Shares(Left(previous, messages), |messages|), |messages|)
  {
    var left := Left(previous, messages);
    SummaryLength(previous, messages);
    KeptAtMostShares(messages, Shares(left, |messages|), |messages|);
    SharesSumToBudget(left, |messages|);
  }

  // ---- its lines ----

  function Split(s: string): (r: seq<string>)
    ensures r != []
  {
    if s == "" then [""]
    else
      var init, c := Split(s[..|s| - 1]), s[|s| - 1];
      if c == '\n' then init + [""] else init[..|init| - 1] + [init[|init| - 1] + [c]]
  }

  lemma {:induction false} SplitLine(s: string, line: string)
    requires '\n' !in line
    ensures Split(s + "\n" + line) == Split(s) + [line]
  {
    if line == "" {
      assert s + "\n" + "" == s + "\n" && (s + "\n")[..|s|] == s;
    } else {
      var init := line[..|line| - 1];
      SplitLine(s, init);
      assert (s + "\n" + line)[..|s + "\n" + line| - 1] == s + "\n" + init;
      assert init + [line[|line| - 1]] == line;
    }
  }

  lemma {:induction false} SplitWhole(line: string)
    requires '\n' !in line
    ensures Split(line) == [line]
  {
    if line != "" {
      SplitWhole(line[..|line| - 1]);
      assert line[..|line| - 1] + [line[|line| - 1]] == line;
    }
  }

  lemma {:induction false} SplitAfter(first: string, lines: seq<string>)
    requires forall i :: 0 <= i < |lines| ==> '\n' !in lines[i]
    ensures Split(Join([first] + lines)) == Split(first) + lines
  {
    var all := [first] + lines;
    if lines == [] {
      assert all == [first];
    } else {
      var init, last := lines[..|lines| - 1], lines[|lines| - 1];
      assert all[..|all| - 1] == [first] + init && all[|all| - 1] == last;
      SplitAfter(first, init);
      SplitLine(Join([first] + init), last);
      assert Split(first) + init + [last] == Split(first) + lines;
    }
  }

  lemma SplitJoin(lines: seq<string>)
    requires lines != [] && forall i :: 0 <= i < |lines| ==> '\n' !in lines[i]
    ensures Split(Join(lines)) == lines
  {
    SplitAfter(lines[0], lines[1..]);
    SplitWhole(lines[0]);
    assert [lines[0]] + lines[1..] == lines;
  }

  lemma {:induction false} DigitsOneLine(n: nat)
    ensures '\n' !in Digits(n)
  {
    if n >= 10 { DigitsOneLine(n / 10); }
  }

  lemma MessageLineIsOne(m: Message, budget: nat)
    requires '\n' !in m.role
    ensures '\n' !in MessageLine(m, budget)
  {
    DigitsOneLine(m.seqNo);
    CompactMeetsBudget(Content(m), budget);
  }

  predicate EndsWith(all: seq<string>, lines: seq<string>) {
    |all| >= |lines| && all[|all| - |lines|..] == lines
  }

  lemma EndsWithLines(head: seq<string>, lines: seq<string>)
    requires |head| <= 1 && lines != [] && forall i :: 0 <= i < |lines| ==> '\n' !in lines[i]
    ensures EndsWith(Split(Join(head + lines)), lines)
    ensures head == [] ==> |Split(Join(head + lines))| == |lines|
  {
    if head == [] {
      assert head + lines == lines;
      SplitJoin(lines);
    } else {
      assert head == [head[0]];
      SplitAfter(head[0], lines);
    }
  }

  lemma PrefixBegins(m: Message, budget: nat)
    ensures Prefix(m) <= MessageLine(m, budget)
  {
  }

  predicate BeginsLine(m: Message, line: string) { '\n' !in line && Prefix(m) <= line }

  lemma EachBeginsLine(messages: seq<Message>, left: nat)
    requires forall i :: 0 <= i < |messages| ==> '\n' !in messages[i].role
    ensures forall i :: 0 <= i < |messages| ==> BeginsLine(messages[i], MessageLines(messages, left)[i])
  {
    forall i | 0 <= i < |messages| ensures BeginsLine(messages[i], MessageLines(messages, left)[i]) {
      MessageLineIsOne(messages[i], Shares(left, |messages|)[i]);
      PrefixBegins(messages[i], Shares(left, |messages|)[i]);
    }
  }

  /** The last lines of a summary are the covered messages, one each, in order: a line
      begins with its message's prefix and goes on with that message's text. */
  lemma SummaryEndsWithMessages(previous: Option<string>, messages: seq<Message>)
    requires messages != [] && forall i :: 0 <= i < |messages| ==> '\n' !in messages[i].role
    ensures var lines, texts := Split(Summary(previous, messages)), MessageLines(messages, Left(previous, messages));
      && EndsWith(lines, texts) && (previous.None? ==> |lines| == |messages|)
      && forall i :: 0 <= i < |messages| ==> BeginsLine(messages[i], texts[i])
  {
    var head, texts := PreviousLine(previous, messages), MessageLines(messages, Left(previous, messages));
    EachBeginsLine(messages, Left(previous, messages));
    assert forall i :: 0 <= i < |texts| ==> BeginsLine(messages[i], texts[i]);
    EndsWithLines(head, texts);
    assert Summary(previous, messages) == Join(head + texts);
  }

  // ---- what its lines say ----

  predicate Blank(s: string) { forall i :: 0 <= i < |s| ==> Space(s[i]) }

  /** The content is the trimmed text between blanks. */
  predicate Trims(content: string, before: string, text: string, after: string) {
    && content == before + text + after && Blank(before) && Blank(after)
    && (text != "" ==> !Space(text[0]) && !Space(text[|text| - 1]))
  }

  lemma BlankBefore(c: char, s: string, before: string, text: string, after: string)
    requires Space(c) && Trims(s, before, text, after)
    ensures Trims([c] + s, [c] + before, text, after)
  {
    assert [c] + s == ([c] + before) + text + after;
  }

  lemma BlankAfter(c: char, s: string, before: string, text: string, after: string)
    requires Space(c) && Trims(s, before, text, after)
    ensures Trims(s + [c], before, text, after + [c])
  {
    assert s + [c] == before + text + (after + [c]);
  }

  lemma {:induction false} StripTrims(s: string) returns (before: string, after: string)
    ensures Trims(s, before, Strip(s), after)
  {
    before, after := "", "";
    if s == "" {
    } else if Space(s[0]) {
      before, after := StripTrims(s[1..]);
      BlankBefore(s[0], s[1..], before, Strip(s[1..]), after);
      assert [s[0]] + s[1..] == s;
      before := [s[0]] + before;
    } else if Space(s[|s| - 1]) {
      before, after := StripTrims(s[..|s| - 1]);
      BlankAfter(s[|s| - 1], s[..|s| - 1], before, Strip(s[..|s| - 1]), after);
      assert s[..|s| - 1] + [s[|s| - 1]] == s;
      after := after + [s[|s| - 1]];
    } else {
      assert s == "" + s + "";
    }
  }

  /** The text with its newlines read as spaces. */
  predicate OnOneLine(text: string, line: string) {
    |line| == |text| && forall i :: 0 <= i < |text| ==> line[i] == if text[i] == '\n' then ' ' else text[i]
  }

  /** What is shown of a text within a budget: all of it when it fits, else its beginning and
      end around the marker, else the beginning of the marker. */
  ghost predicate ShownWithin(text: string, budget: nat, shown: string) {
    if |text| <= budget then shown == text
    else if budget <= 7 then shown == "…[已压缩]…"[..budget]
    else exists head, tail :: CutTo(text, budget, shown, head, tail)
  }

  lemma CompactShows(text: string, budget: nat)
    ensures ShownWithin(text, budget, Compact(text, budget))
  {
    MarkerLength();
    CompactMeetsBudget(text, budget);
  }

  /** Who speaks, and the number of the message. */
  predicate Heads(m: Message, head: string) {
    var speaker := if m.role == "user" then "用户" else if m.role == "assistant" then "分析助手" else m.role;
    head == speaker + "[" + Digits(m.seqNo) + "]：" && Value(Digits(m.seqNo)) == m.seqNo
  }

  /** A line tells what its message says, within a budget. */
  ghost predicate Tells(m: Message, budget: nat, line: string) {
    exists before, text, after, oneLine, head, shown ::
      && Trims(m.content.GetOr(""), before, text, after) && OnOneLine(text, oneLine)
      && Heads(m, head) && ShownWithin(oneLine, budget, shown) && line == head + shown
  }

  lemma LineTells(m: Message, budget: nat)
    ensures Tells(m, budget, MessageLine(m, budget))
  {
    var content := m.content.GetOr("");
    var before, after := StripTrims(content);
    ValueOfDigits(m.seqNo);
    CompactShows(Content(m), budget);
    assert Trims(content, before, Strip(content), after) && OnOneLine(Strip(content), Content(m))
           && Heads(m, Prefix(m)) && ShownWithin(Content(m), budget, Compact(Content(m), budget));
  }

  /** The budget of the previous text: a third of the 12000 characters that are left, and at
      most 4000. */
  function PreviousShare(previous: Option<string>, messages: seq<Message>): nat {
    Min(4000, Max(0, 12000 - Required(previous, messages)) / 3)
  }

  /** The lines of a summary: the previous text, and what each message says within its share. */
  ghost predicate SummaryTells(previous: Option<string>, messages: seq<Message>, summary: string) {
    exists before, lines ::
      && summary == before + Join(lines) && Split(Join(lines)) == lines
      && LinesTell(messages, Left(previous, messages), lines)
      && PreviousTells(previous, PreviousShare(previous, messages), before)
  }

  /** Line i tells message i within its share. */
  ghost predicate LinesTell(messages: seq<Message>, left: nat, lines: seq<string>) {
    |lines| == |messages| && forall i :: 0 <= i < |lines| ==> Tells(messages[i], Share(left, |messages|, i), lines[i])
  }

  ghost predicate PreviousTells(previous: Option<string>, budget: nat, before: string) {
    if previous.None? then before == ""
    else exists shown :: ShownWithin(previous.value, budget, shown) && before == "既有摘要：" + shown + "\n"
  }

  lemma {:induction false} JoinAfter(first: string, lines: seq<string>)
    requires lines != []
    ensures Join([first] + lines) == first + "\n" + Join(lines)
  {
    var all := [first] + lines;
    if |lines| == 1 {
      assert all[..1] == [first];
    } else {
      var init := lines[..|lines| - 1];
      JoinAfter(first, init);
      assert all[..|all| - 1] == [first] + init && all[|all| - 1] == lines[|lines| - 1];
    }
  }

  lemma LinesSay(messages: seq<Message>, left: nat)
    ensures LinesTell(messages, left, MessageLines(messages, left))
  {
    var lines := MessageLines(messages, left);
    forall i | 0 <= i < |lines| ensures Tells(messages[i], Share(left, |messages|, i), lines[i]) {
      LineTells(messages[i], Share(left, |messages|, i));
      assert lines[i] == MessageLine(messages[i], Shares(left, |messages|)[i]);
    }
  }

  lemma LinesSplit(messages: seq<Message>, left: nat)
    requires messages != [] && forall i :: 0 <= i < |messages| ==> '\n' !in messages[i].role
    ensures Split(Join(MessageLines(messages, left))) == MessageLines(messages, left)
  {
    EachBeginsLine(messages, left);
    assert forall i :: 0 <= i < |messages| ==> BeginsLine(messages[i], MessageLines(messages, left)[i]);
    SplitJoin(MessageLines(messages, left));
  }

  lemma SummarySays(previous: Option<string>, messages: seq<Message>)
    requires messages != [] && forall i :: 0 <= i < |messages| ==> '\n' !in messages[i].role
    ensures SummaryTells(previous, messages, Summary(previous, messages))
  {
    var lines := MessageLines(messages, Left(previous, messages));
    var before := if previous.Some? then "既有摘要：" + PreviousText(previous, messages) + "\n" else "";
    LinesSplit(messages, Left(previous, messages));
    LinesSay(messages, Left(previous, messages));
    PreviousSays(previous, messages, lines, before);
  }

  lemma PreviousSays(previous: Option<string>, messages: seq<Message>, lines: seq<string>, before: string)
    requires lines != [] && lines == MessageLines(messages, Left(previous, messages))
    requires before == if previous.Some? then "既有摘要：" + PreviousText(previous, messages) + "\n" else ""
    ensures Summary(previous, messages) == before + Join(lines)
    ensures PreviousTells(previous, PreviousShare(previous, messages), before)
  {
    if previous.Some? {
      CompactShows(previous.value, PreviousShare(previous, messages));
      JoinAfter(PREVIOUS_LABEL + PreviousText(previous, messages), lines);
    } else {
      assert [] + lines == lines;
    }
  }

  /** The summary of a previous text and the messages after it; each line shows what its
      message says. */
  method BuildFactualSummary(previous: Option<string>, messages: seq<Message>) returns (summary: string)
    ensures summary == Summary(previous, messages)
    ensures messages != [] && (forall i :: 0 <= i < |messages| ==> '\n' !in messages[i].role) ==>
              SummaryTells(previous, messages, summary)
  {
    if messages != [] && (forall i :: 0 <= i < |messages| ==> '\n' !in messages[i].role) {
      SummarySays(previous, messages);
    }
    var entries, prefixChars := Entries(messages);
    var lineCount := |entries| + if previous.Some? then 1 else 0;
    var requiredChars := Max(0, lineCount - 1) + prefixChars;
    if previous.Some? { requiredChars := requiredChars + |PREVIOUS_LABEL|; }
    var lines, budget := StartLines(previous, messages, requiredChars);
    lines := ShareOut(lines, messages, entries, budget);
    summary := Join(lines);
  }
}
