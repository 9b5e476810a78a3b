/** The stores a client applies server events to: chat.ts and task.ts. */
module ClientStore {
  import opened Basics
  import opened TaskRecord

  type Id = nat

  datatype Entry = Entry(task: Id, tool: bool, eventSeq: nat, name: string, state: string)

  datatype ChatMessage = ChatMessage(id: nat, clientMsg: Option<string>, seqNo: Option<nat>,
                                     pending: bool, content: string)

  datatype Store = Store(
    seen: map<Id, nat>, activeTask: Option<Id>, status: Option<TaskStatus>, step: Option<string>,
    question: Option<string>, error: Option<string>, resultReady: bool, timeline: seq<Entry>,
    messages: seq<ChatMessage>, streaming: Option<nat>)

  const EMPTY := Store(map[], None, None, None, None, None, false, [], [], None)

  const WINDOW := 50

  // ---- task.ts ----

  function LastEntries(entries: seq<Entry>): seq<Entry> {
    if |entries| <= WINDOW then entries else entries[|entries| - WINDOW..]
  }

  /** Entries are told apart by their id: task, kind and event number. */
  predicate Listed(timeline: seq<Entry>, entry: Entry) {
    exists i :: 0 <= i < |timeline|
      && timeline[i].task == entry.task && timeline[i].tool == entry.tool && timeline[i].eventSeq == entry.eventSeq
  }

  function Appended(timeline: seq<Entry>, entry: Entry): seq<Entry> {
    if Listed(timeline, entry) then timeline else LastEntries(timeline + [entry])
  }

  /** The timeline entry an event makes, if it makes one. */
  function EntryOf(task: Id, eventSeq: nat, event: Event): Option<Entry> {
    match event
    case StatusChange(_, _, Some(mark)) =>
      if mark.name != "" && mark.state != "" then Some(Entry(task, false, eventSeq, mark.name, mark.state)) else None
    case ToolEvent(_, mark) =>
      if mark.name != "" && mark.state != "" then Some(Entry(task, true, eventSeq, mark.name, mark.state)) else None
    case _ => None
  }

  function Listing(timeline: seq<Entry>, entry: Option<Entry>): seq<Entry> {
    match entry case None => timeline case Some(e) => Appended(timeline, e)
  }

  /** Events of another task start its view afresh. */
  function Activated(s: Store, task: Id): Store {
    if s.activeTask == Some(task) then s
    else s.(activeTask := Some(task), timeline := [], error := None, resultReady := false, question := None)
  }

  function TaskView(s: Store, task: Id, eventSeq: nat, event: Event): Store {
    var s := Activated(s, task);
    var timeline := Listing(s.timeline, EntryOf(task, eventSeq, event));
    match event
    case StatusChange(status, step, _) =>
      s.(status := Some(status), step := step, timeline := timeline,
         question := if status == WaitingInput then s.question else None)
    case ToolEvent(_, _) => s.(timeline := timeline)
    case ClarificationRequired(question) => s.(status := Some(WaitingInput), question := Some(question))
    case ResultReady => s.(resultReady := true)
    case ErrorRaised(code) => s.(error := Some(code))
    case Done(status) => s.(status := Some(status), step := None, question := None)
    case _ => s
  }

  // ---- chat.ts ----

  /** messages.find by message id: the index of the first match, or the length. */
  function Find(messages: seq<ChatMessage>, id: nat): (i: nat)
    ensures i <= |messages| && (i < |messages| ==> messages[i].id == id)
    ensures forall k :: 0 <= k < i ==> messages[k].id != id
  {
    if messages == [] || messages[0].id == id then 0 else 1 + Find(messages[1..], id)
  }

  predicate Matches(m: ChatMessage, id: nat, clientMsg: Option<string>) {
    m.id == id || (clientMsg.Some? && m.clientMsg == clientMsg)
  }

  /** messages.find by message id or client message. */
  function FindStarted(messages: seq<ChatMessage>, id: nat, clientMsg: Option<string>): (i: nat)
    ensures i <= |messages| && (i < |messages| ==> Matches(messages[i], id, clientMsg))
    ensures forall k :: 0 <= k < i ==> !Matches(messages[k], id, clientMsg)
  {
    if messages == [] || Matches(messages[0], id, clientMsg) then 0 else 1 + FindStarted(messages[1..], id, clientMsg)
  }

  function Started(messages: seq<ChatMessage>, messageId: nat, clientMsg: Option<string>,
                   seqNo: nat): seq<ChatMessage> {
    var i := FindStarted(messages, messageId, clientMsg);
    if i == |messages| then messages
    else messages[i := messages[i].(id := messageId, seqNo := Some(seqNo), pending := false)]
  }

  function Extended(messages: seq<ChatMessage>, messageId: nat, seqNo: nat, text: string): seq<ChatMessage> {
    var i := Find(messages, messageId);
    if i == |messages| then messages + [ChatMessage(messageId, None, Some(seqNo), false, text)]
    else messages[i := messages[i].(seqNo := Some(seqNo), content := messages[i].content + text)]
  }

  function ChatView(s: Store, event: Event): Store {
    match event
    case MessageStart(messageId, clientMsg, seqNo) => s.(messages := Started(s.messages, messageId, clientMsg, seqNo))
    case MessageDelta(messageId, seqNo, text) =>
      s.(messages := Extended(s.messages, messageId, seqNo, text), streaming := Some(messageId))
    case Done(_) => s.(streaming := None)
    case _ => s
  }

  function Seen(s: Store, task: Id): nat { if task in s.seen then s.seen[task] else 0 }

  /** applyEvent: numbered events at or below the highest number seen are dropped. */
  function Received(s: Store, task: Id, eventSeq: nat, event: Event): Store {
    if 0 < eventSeq <= Seen(s, task) then s
    else
      var s := if eventSeq > 0 then s.(seen := s.seen[task := eventSeq]) else s;
      ChatView(TaskView(s, task, eventSeq, event), event)
  }

  /** Both stores as the code has them. */
  class Client {
    var eventSeqByTask: map<Id, nat>
    var activeTaskId: Option<Id>
    var status: Option<TaskStatus>
    var step: Option<string>
    var question: Option<string>
    var error: Option<string>
    var resultReady: bool
    var timeline: seq<Entry>
    var messages: seq<ChatMessage>
    var streaming: Option<nat>

    function View(): Store
      reads this
    {
      Store(eventSeqByTask, activeTaskId, status, step, question, error, resultReady, timeline, messages, streaming)
    }

    constructor ()
      ensures View() == EMPTY
    {
      eventSeqByTask, activeTaskId, status, step := map[], None, None, None;
      question, error, resultReady, timeline := None, None, false, [];
      messages, streaming := [], None;
    }

    method AppendTimeline(entry: Entry)
      modifies this`timeline
      ensures timeline == Appended(old(timeline), entry)
    {
      for i := 0 to |timeline|
        invariant timeline == old(timeline)
        invariant forall k :: 0 <= k < i ==>
                    !(timeline[k].task == entry.task && timeline[k].tool == entry.tool
                      && timeline[k].eventSeq == entry.eventSeq)
      {
        if timeline[i].task == entry.task && timeline[i].tool == entry.tool
           && timeline[i].eventSeq == entry.eventSeq { return; }
      }
      timeline := timeline + [entry];
      if |timeline| > WINDOW { timeline := timeline[|timeline| - WINDOW..]; }
    }

    method ApplyToTask(task: Id, eventSeq: nat, event: Event)
      modifies this
      ensures View() == TaskView(old(View()), task, eventSeq, event)
    {
      if activeTaskId != Some(task) {
        timeline := [];
        error := None;
        resultReady := false;
        question := None;
      }
      activeTaskId := Some(task);
      var entry := EntryOf(task, eventSeq, event);
      match event
      case StatusChange(newStatus, newStep, _) =>
        status := Some(newStatus);
        step := newStep;
        if entry.Some? { AppendTimeline(entry.value); }
        if status != Some(WaitingInput) { question := None; }
      case ToolEvent(_, _) =>
        if entry.Some? { AppendTimeline(entry.value); }
      case ClarificationRequired(asked) =>
        status := Some(WaitingInput);
        question := Some(asked);
      case ResultReady => resultReady := true;
      case ErrorRaised(code) => error := Some(code);
      case Done(newStatus) =>
        status := Some(newStatus);
        step := None;
        question := None;
      case _ =>
    }

    method ApplyToChat(event: Event)
      modifies this
      ensures View() == ChatView(old(View()), event)
    {
      match event
      case MessageStart(messageId, clientMsg, seqNo) =>
        messages := Started(messages, messageId, clientMsg, seqNo);
      case MessageDelta(messageId, seqNo, text) =>
        var i := Find(messages, messageId);
        assert "" + text == text;
        if i == |messages| { messages := messages + [ChatMessage(messageId, None, None, false, "")]; }
        var content := messages[i].content + text;
        messages := messages[i := messages[i].(seqNo := Some(seqNo), content := content)];
        streaming := Some(messageId);
      case Done(_) => streaming := None;
      case _ =>
    }

    method ApplyEvent(task: Id, eventSeq: nat, event: Event)
      modifies this
      ensures View() == Received(old(View()), task, eventSeq, event)
    {
      if eventSeq > 0 {
        var previous := if task in eventSeqByTask then eventSeqByTask[task] else 0;
        if eventSeq <= previous { return; }
        eventSeqByTask := eventSeqByTask[task := eventSeq];
      }
      ApplyToTask(task, eventSeq, event);
      ApplyToChat(event);
    }
  }

  // ---- delivery order ----

  function Highest(numbers: seq<nat>): nat {
    if numbers == [] then 0 else Max(Highest(numbers[..|numbers| - 1]), numbers[|numbers| - 1])
  }

  /** Each delivered number is one of a log of n events and at most one above the highest before it. */
  predicate NoGap(n: nat, numbers: seq<nat>) {
    forall i :: 0 <= i < |numbers| ==> 1 <= numbers[i] <= n && numbers[i] <= Highest(numbers[..i]) + 1
  }

  type Receiver = (Store, nat) -> Store

  /** Receiving the k-th event of a task's log. */
  function Receive(task: Id, log: seq<Event>): Receiver {
    (s: Store, k: nat) => if 1 <= k <= |log| then Received(s, task, k, log[k - 1]) else s
  }

  /** The store after the events with these numbers were delivered, in this order. */
  function Delivered(receive: Receiver, numbers: seq<nat>): Store {
    if numbers == [] then EMPTY else receive(Delivered(receive, numbers[..|numbers| - 1]), numbers[|numbers| - 1])
  }

  /** The store after the first n events, each once and in order. */
  function InOrder(receive: Receiver, n: nat): Store {
    if n == 0 then EMPTY else receive(InOrder(receive, n - 1), n)
  }

  /** Old numbers change nothing, the next one is the highest from then on. */
  ghost predicate Deduplicates(receive: Receiver, task: Id, n: nat) {
    && (forall s: Store, k: nat :: k <= Seen(s, task) ==> receive(s, k) == s)
    && (forall s: Store, k: nat :: Seen(s, task) < k <= n ==> Seen(receive(s, k), task) == k)
  }

  lemma ReceiveDeduplicates(task: Id, log: seq<Event>)
    ensures Deduplicates(Receive(task, log), task, |log|)
  {
  }

  lemma {:induction false} SeenInOrder(receive: Receiver, task: Id, n: nat)
    requires Deduplicates(receive, task, n)
    ensures Seen(InOrder(receive, n), task) == n
  {
    if n > 0 { SeenInOrder(receive, task, n - 1); }
  }

  lemma NoGapPrefix(n: nat, numbers: seq<nat>)
    requires NoGap(n, numbers) && numbers != []
    ensures NoGap(n, numbers[..|numbers| - 1])
    ensures 1 <= numbers[|numbers| - 1] <= n && numbers[|numbers| - 1] <= Highest(numbers[..|numbers| - 1]) + 1
  {
    var init := numbers[..|numbers| - 1];
    assert forall i :: 0 <= i < |init| ==> init[..i] == numbers[..i];
  }

  /** Duplicated and replayed deliveries in any order without a gap leave the store as the
      log prefix applied once in order does. */
  lemma {:induction false} DeliveredIsInOrder(receive: Receiver, task: Id, n: nat, numbers: seq<nat>)
    requires Deduplicates(receive, task, n) && NoGap(n, numbers)
    ensures Highest(numbers) <= n && Delivered(receive, numbers) == InOrder(receive, Highest(numbers))
  {
    if numbers != [] {
      var init := numbers[..|numbers| - 1];
      NoGapPrefix(n, numbers);
      DeliveredIsInOrder(receive, task, n, init);
      SeenInOrder(receive, task, Highest(init));
    }
  }

  // ---- what the log prefix shows ----

  /** The step, independently of the store: the last event that sets it. */
  function StepFold(log: seq<Event>): Option<string> {
    if log == [] then None
    else
      match log[|log| - 1]
      case StatusChange(_, step, _) => step
      case Done(_) => None
      case _ => StepFold(log[..|log| - 1])
  }

  /** The question to answer: the last one asked, unless a later status is not waiting_input
      or the task is done. */
  function QuestionFold(log: seq<Event>): Option<string> {
    if log == [] then None
    else
      match log[|log| - 1]
      case ClarificationRequired(question) => Some(question)
      case StatusChange(status, _, _) => if status == WaitingInput then QuestionFold(log[..|log| - 1]) else None
      case Done(_) => None
      case _ => QuestionFold(log[..|log| - 1])
  }

  /** The last error raised. */
  function ErrorFold(log: seq<Event>): Option<string> {
    if log == [] then None
    else if log[|log| - 1].ErrorRaised? then Some(log[|log| - 1].code)
    else ErrorFold(log[..|log| - 1])
  }

  /** The named nodes and tools that the log reports, in order. */
  function AllEntries(task: Id, log: seq<Event>): seq<Entry> {
    if log == [] then []
    else
      var init, n := AllEntries(task, log[..|log| - 1]), |log|;
      match log[n - 1]
      case StatusChange(_, _, Some(Mark(name, state))) =>
        if name == "" || state == "" then init else init + [Entry(task, false, n, name, state)]
      case ToolEvent(_, Mark(name, state)) =>
        if name == "" || state == "" then init else init + [Entry(task, true, n, name, state)]
      case _ => init
  }

  /** The message that is being written: the last one extended, until the task is done. */
  function StreamFold(log: seq<Event>): Option<nat> {
    if log == [] then None
    else
      match log[|log| - 1]
      case MessageDelta(messageId, _, _) => Some(messageId)
      case Done(_) => None
      case _ => StreamFold(log[..|log| - 1])
  }

  /** The deltas of one message, concatenated. */
  function TextOf(log: seq<Event>, messageId: nat): string {
    if log == [] then ""
    else
      TextOf(log[..|log| - 1], messageId) + DeltaText(log[|log| - 1], messageId)
  }

  function DeltaText(event: Event, messageId: nat): string {
    if event.MessageDelta? && event.messageId == messageId then event.text else ""
  }

  function ShownText(messages: seq<ChatMessage>, messageId: nat): string {
    var i := Find(messages, messageId);
    if i == |messages| then "" else messages[i].content
  }

  lemma {:induction false} EntriesBelow(task: Id, log: seq<Event>)
    ensures forall i :: 0 <= i < |AllEntries(task, log)| ==> AllEntries(task, log)[i].eventSeq <= |log|
  {
    if log != [] { EntriesBelow(task, log[..|log| - 1]); }
  }

  predicate Shows(s: Store, task: Id, log: seq<Event>) {
    && ShowsFolds(s, log) && s.streaming == StreamFold(log)
    && s.timeline == LastEntries(AllEntries(task, log))
    && (s.activeTask == Some(task) || log == [])
  }

  lemma LastOfLast(entries: seq<Entry>, entry: Entry)
    ensures LastEntries(LastEntries(entries) + [entry]) == LastEntries(entries + [entry])
  {
  }

  lemma TimelineStep(task: Id, log: seq<Event>, event: Event)
    ensures Listing(LastEntries(AllEntries(task, log)), EntryOf(task, |log| + 1, event))
         == LastEntries(AllEntries(task, log + [event]))
  {
    var more, entry := log + [event], EntryOf(task, |log| + 1, event);
    assert more[..|more| - 1] == log;
    if entry.Some? {
      EntriesBelow(task, log);
      assert !Listed(LastEntries(AllEntries(task, log)), entry.value);
      LastOfLast(AllEntries(task, log), entry.value);
    }
  }

  /** What one more event does to each fold. */
  lemma FoldsSnoc(log: seq<Event>, event: Event)
    ensures var more := log + [event];
      && StatusFold(more) == (if Says(event).Some? then Says(event) else StatusFold(log))
      && StepFold(more) == (match event
                            case StatusChange(_, step, _) => step
                            case Done(_) => None
                            case _ => StepFold(log))
      && QuestionFold(more) == (match event
                                case ClarificationRequired(question) => Some(question)
                                case StatusChange(status, _, _) =>
                                  if status == WaitingInput then QuestionFold(log) else None
                                case Done(_) => None
                                case _ => QuestionFold(log))
      && ErrorFold(more) == (if event.ErrorRaised? then Some(event.code) else ErrorFold(log))
      && (ResultReady in more <==> ResultReady in log || event == ResultReady)
  {
    var more := log + [event];
    assert more[..|more| - 1] == log && more[|more| - 1] == event;
  }

  predicate ShowsFolds(s: Store, log: seq<Event>) {
    && s.status == StatusFold(log) && s.step == StepFold(log) && s.question == QuestionFold(log)
    && s.error == ErrorFold(log) && (s.resultReady <==> ResultReady in log)
  }

  lemma ViewStep(s: Store, task: Id, log: seq<Event>, event: Event)
    requires ShowsFolds(s, log) && (s.activeTask == Some(task) || log == [])
    ensures ShowsFolds(TaskView(s, task, |log| + 1, event), log + [event])
  {
    FoldsSnoc(log, event);
  }

  /** The chat's part touches nothing of the task's. */
  lemma ChatKeepsView(s: Store, event: Event)
    ensures var t := ChatView(s, event);
      t.status == s.status && t.step == s.step && t.question == s.question && t.error == s.error
      && t.resultReady == s.resultReady && t.timeline == s.timeline && t.activeTask == s.activeTask
  {
  }

  lemma ChatStreams(s: Store, log: seq<Event>, event: Event)
    requires s.streaming == StreamFold(log)
    ensures ChatView(s, event).streaming == StreamFold(log + [event])
  {
    assert (log + [event])[..|log|] == log;
  }

  lemma ShowsStep(s: Store, task: Id, log: seq<Event>, event: Event)
    requires Shows(s, task, log) && Seen(s, task) == |log|
    ensures Shows(Received(s, task, |log| + 1, event), task, log + [event])
  {
    var seen := s.(seen := s.seen[task := |log| + 1]);
    TimelineStep(task, log, event);
    ViewStep(seen, task, log, event);
    ChatKeepsView(TaskView(seen, task, |log| + 1, event), event);
    ChatStreams(TaskView(seen, task, |log| + 1, event), log, event);
  }

  ghost predicate KeepsShowing(receive: Receiver, task: Id, log: seq<Event>) {
    forall s: Store, n: nat :: 1 <= n <= |log| && Shows(s, task, log[..n - 1]) && Seen(s, task) == n - 1 ==>
      Shows(receive(s, n), task, log[..n])
  }

  lemma ReceiveKeepsShowing(task: Id, log: seq<Event>)
    ensures KeepsShowing(Receive(task, log), task, log)
  {
    forall s: Store, n: nat | 1 <= n <= |log| && Shows(s, task, log[..n - 1]) && Seen(s, task) == n - 1
      ensures Shows(Receive(task, log)(s, n), task, log[..n])
    {
      assert log[..n] == log[..n - 1] + [log[n - 1]];
      ShowsStep(s, task, log[..n - 1], log[n - 1]);
    }
  }

  lemma {:induction false} InOrderShows(receive: Receiver, task: Id, log: seq<Event>, n: nat)
    requires n <= |log| && Deduplicates(receive, task, |log|) && KeepsShowing(receive, task, log)
    ensures Shows(InOrder(receive, n), task, log[..n])
  {
    if n > 0 {
      InOrderShows(receive, task, log, n - 1);
      SeenInOrder(receive, task, n - 1);
    }
  }

  /** No two messages share an id, and none waits for a client message. */
  predicate FromEvents(messages: seq<ChatMessage>) {
    && (forall i, j :: 0 <= i < j < |messages| ==> messages[i].id != messages[j].id)
    && (forall i :: 0 <= i < |messages| ==> messages[i].clientMsg == None)
  }

  lemma FindIs(messages: seq<ChatMessage>, i: nat)
    requires FromEvents(messages) && i < |messages|
    ensures Find(messages, messages[i].id) == i
  {
  }

  lemma FindNone(messages: seq<ChatMessage>, id: nat)
    requires forall k :: 0 <= k < |messages| ==> messages[k].id != id
    ensures Find(messages, id) == |messages|
  {
  }

  lemma StartedShows(messages: seq<ChatMessage>, messageId: nat, clientMsg: Option<string>, seqNo: nat, id: nat)
    requires FromEvents(messages)
    ensures FromEvents(Started(messages, messageId, clientMsg, seqNo))
    ensures ShownText(Started(messages, messageId, clientMsg, seqNo), id) == ShownText(messages, id)
  {
    var after := Started(messages, messageId, clientMsg, seqNo);
    assert forall k :: 0 <= k < |messages| ==> after[k].id == messages[k].id && after[k].content == messages[k].content;
    SameFind(messages, after, id);
  }

  /** The start of a message confirms the one that was shown before it was stored. */
  lemma OptimisticConfirmed(messages: seq<ChatMessage>, i: nat, messageId: nat, clientMsg: string, seqNo: nat)
    requires i < |messages| && messages[i].clientMsg == Some(clientMsg)
    requires forall k :: 0 <= k < i ==> messages[k].clientMsg != Some(clientMsg) && messages[k].id != messageId
    ensures var after := Started(messages, messageId, Some(clientMsg), seqNo);
      && |after| == |messages| && (forall k :: 0 <= k < |messages| && k != i ==> after[k] == messages[k])
      && after[i] == ChatMessage(messageId, Some(clientMsg), Some(seqNo), false, messages[i].content)
  {
  }

  lemma SameFind(messages: seq<ChatMessage>, after: seq<ChatMessage>, id: nat)
    requires |after| == |messages| && forall k :: 0 <= k < |messages| ==> after[k].id == messages[k].id
    ensures Find(after, id) == Find(messages, id)
  {
  }

  lemma ExtendedShows(messages: seq<ChatMessage>, messageId: nat, seqNo: nat, text: string, id: nat)
    requires FromEvents(messages)
    ensures FromEvents(Extended(messages, messageId, seqNo, text))
    ensures ShownText(Extended(messages, messageId, seqNo, text), id) ==
            ShownText(messages, id) + if id == messageId then text else ""
  {
    var after := Extended(messages, messageId, seqNo, text);
    if |after| == |messages| {
      assert forall k :: 0 <= k < |messages| ==> after[k].id == messages[k].id;
      SameFind(messages, after, id);
    } else {
      assert FromEvents(after);
      var i := Find(messages, id);
      if i < |messages| {
        FindIs(after, i);
      } else if id == messageId {
        FindIs(after, |messages|);
      } else {
        FindNone(after, id);
      }
    }
  }

  /** An event extends the text of its own message and leaves the others. */
  predicate TextStep(before: seq<ChatMessage>, after: seq<ChatMessage>, event: Event, id: nat) {
    FromEvents(after) && ShownText(after, id) == ShownText(before, id) + DeltaText(event, id)
  }

  lemma ReceivedText(s: Store, task: Id, eventSeq: nat, event: Event, id: nat)
    requires FromEvents(s.messages) && eventSeq > Seen(s, task)
    ensures TextStep(s.messages, Received(s, task, eventSeq, event).messages, event, id)
  {
    match event
    case MessageStart(messageId, clientMsg, seqNo) => StartedShows(s.messages, messageId, clientMsg, seqNo, id);
    case MessageDelta(messageId, seqNo, text) => ExtendedShows(s.messages, messageId, seqNo, text, id);
    case _ =>
  }

  ghost predicate KeepsText(receive: Receiver, task: Id, log: seq<Event>, id: nat) {
    forall s: Store, n: nat :: 1 <= n <= |log| && FromEvents(s.messages) && Seen(s, task) == n - 1 ==>
      TextStep(s.messages, receive(s, n).messages, log[n - 1], id)
  }

  lemma ReceiveKeepsText(task: Id, log: seq<Event>, id: nat)
    ensures KeepsText(Receive(task, log), task, log, id)
  {
    forall s: Store, n: nat | 1 <= n <= |log| && FromEvents(s.messages) && Seen(s, task) == n - 1
      ensures TextStep(s.messages, Receive(task, log)(s, n).messages, log[n - 1], id)
    {
      ReceivedText(s, task, n, log[n - 1], id);
    }
  }

  lemma {:induction false} InOrderShowsText(receive: Receiver, task: Id, log: seq<Event>, n: nat, id: nat)
    requires n <= |log| && Deduplicates(receive, task, |log|) && KeepsText(receive, task, log, id)
    ensures FromEvents(InOrder(receive, n).messages)
    ensures ShownText(InOrder(receive, n).messages, id) == TextOf(log[..n], id)
  {
    if n > 0 {
      InOrderShowsText(receive, task, log, n - 1, id);
      SeenInOrder(receive, task, n - 1);
      assert log[..n][..n - 1] == log[..n - 1];
    }
  }

  /** Whatever the order of delivery, without a gap, a client that started empty shows the
      status, step, message texts and last 50 timeline entries that the log prefix it has
      received defines. */
  lemma DeliveryShowsLog(task: Id, log: seq<Event>, numbers: seq<nat>, id: nat)
    requires NoGap(|log|, numbers)
    ensures var s, n := Delivered(Receive(task, log), numbers), Highest(numbers);
      && n <= |log|
      && s == InOrder(Receive(task, log), n)
      && s.status == StatusFold(log[..n]) && s.step == StepFold(log[..n])
      && s.question == QuestionFold(log[..n]) && s.error == ErrorFold(log[..n])
      && (s.resultReady <==> ResultReady in log[..n]) && s.streaming == StreamFold(log[..n])
      && s.timeline == LastEntries(AllEntries(task, log[..n]))
      && ShownText(s.messages, id) == TextOf(log[..n], id)
  {
    ReceiveDeduplicates(task, log);
    ReceiveKeepsShowing(task, log);
    ReceiveKeepsText(task, log, id);
    DeliveredIsInOrder(Receive(task, log), task, |log|, numbers);
    InOrderShows(Receive(task, log), task, log, Highest(numbers));
    InOrderShowsText(Receive(task, log), task, log, Highest(numbers), id);
  }
}
