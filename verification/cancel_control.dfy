/** Thread-exact cancellation: which task a cancel frame may touch, what it drains, and what it reports. */
module CancelControl {
  import opened Options
  import opened JsonValue
  import opened SteerControl

  type TaskId = nat
  type EventId = nat

  /** The one-shot control line of a task: used up, or armed with a listener that may have gone. */
  datatype Line = Used | Armed(listening: bool)

  datatype Task = Task(routing: Option<Uuid>, conversation: Option<Uuid>, turn: string, line: Line)

  datatype Outcome = Outcome(channel: Uuid, conversation: Option<Uuid>, turn: Option<string>, status: string, drained: nat)

  /** `seen` holds every task identifier ever used: identifiers are not reused. */
  datatype Desk = Desk(
    tasks: map<TaskId, Task>,
    seen: set<TaskId>,
    queue: map<Uuid, seq<EventId>>,
    signals: seq<TaskId>,
    outcomes: seq<Outcome>,
    releases: seq<Uuid>)

  // ---------- finding a task ----------

  /** `order` is the order in which the task map happens to be visited: each task once. */
  ghost predicate Visits(order: seq<TaskId>, tasks: map<TaskId, Task>) {
    && (forall id :: id in tasks <==> id in order)
    && (forall i, j :: 0 <= i < j < |order| ==> order[i] != order[j])
  }

  function FirstWhere(tasks: map<TaskId, Task>, order: seq<TaskId>, p: Task -> bool): (r: Option<TaskId>)
    requires forall id :: id in order ==> id in tasks
    ensures r.Some? ==> r.value in order && p(tasks[r.value])
    ensures r.None? ==> forall id :: id in order ==> !p(tasks[id])
  {
    if order == [] then None
    else if p(tasks[order[0]]) then Some(order[0])
    else FirstWhere(tasks, order[1..], p)
  }

  predicate IsExactly(task: Task, channel: Uuid, conversation: Uuid, turn: string) {
    task.routing == Some(channel) && task.conversation == Some(conversation) && task.turn == turn
  }

  function ExactTask(d: Desk, order: seq<TaskId>, channel: Uuid, conversation: Uuid, turn: string): Option<TaskId>
    requires forall id :: id in order ==> id in d.tasks
  {
    FirstWhere(d.tasks, order, (task: Task) => IsExactly(task, channel, conversation, turn))
  }

  /** The task of a conversation, or else the only task of the channel. */
  function LooseTask(d: Desk, order: seq<TaskId>, key: Uuid, channel: Uuid): Option<TaskId>
    requires forall id :: id in order ==> id in d.tasks
  {
    var inConversation := FirstWhere(d.tasks, order, (task: Task) => task.conversation == Some(key));
    if inConversation.Some? then inConversation
    else
      var first := FirstWhere(d.tasks, order, (task: Task) => task.routing == Some(channel));
      if first.None? then None
      else if exists id :: id in order && id != first.value && d.tasks[id].routing == Some(channel) then None
      else first
  }

  // ---------- signalling ----------

  predicate CanSignal(d: Desk, target: Option<TaskId>) {
    target.Some? && target.value in d.tasks && d.tasks[target.value].line == Armed(true)
  }

  /** The control line is taken even when nobody listens any more; the signal counts only when it arrives. */
  function Signal(d: Desk, target: Option<TaskId>): Desk {
    if target.None? || target.value !in d.tasks || d.tasks[target.value].line.Used? then d
    else
      var id := target.value;
      d.(tasks := d.tasks[id := d.tasks[id].(line := Used)],
         signals := if d.tasks[id].line.listening then d.signals + [id] else d.signals)
  }

  function Drain(queue: map<Uuid, seq<EventId>>, key: Uuid): map<Uuid, seq<EventId>> {
    queue - {key}
  }

  function QueuedIn(queue: map<Uuid, seq<EventId>>, key: Uuid): nat {
    if key in queue then |queue[key]| else 0
  }

  // ---------- the handler ----------

  function TurnOf(payload: Json): Option<string> {
    TextField(payload, "turnId")
  }

  function KeyOf(u: UuidCodec, payload: Json, channel: Uuid): Uuid {
    var conversation := UuidField(u, payload, "conversationId");
    if conversation.Some? then conversation.value else channel
  }

  /** The task a frame aims at: an explicit turn, even a malformed one, never widens to a conversation. */
  function Target(u: UuidCodec, d: Desk, order: seq<TaskId>, payload: Json, channel: Uuid): Option<TaskId>
    requires forall id :: id in order ==> id in d.tasks
  {
    var conversation := UuidField(u, payload, "conversationId");
    if Get(payload, "turnId").Some? then
      if conversation.Some? && TurnOf(payload).Some?
      then ExactTask(d, order, channel, conversation.value, TurnOf(payload).value) else None
    else LooseTask(d, order, KeyOf(u, payload, channel), channel)
  }

  function StatusOf(fired: bool, explicit: bool, queued: nat): string {
    if fired then "sent" else if explicit || queued == 0 then "no_active_turn" else "cancelled_queued"
  }

  /** One cancel frame. A frame without a valid channel is ignored. */
  function OnCancel(u: UuidCodec, d: Desk, order: seq<TaskId>, payload: Json): Desk
    requires forall id :: id in order ==> id in d.tasks
  {
    match UuidField(u, payload, "channelId")
    case None => d
    case Some(channel) =>
      var target := Target(u, d, order, payload, channel);
      var fired := CanSignal(d, target);
      var explicit := Get(payload, "turnId").Some?;
      var key := KeyOf(u, payload, channel);
      var queued := if fired || explicit then 0 else QueuedIn(d.queue, key);
      var status := StatusOf(fired, explicit, queued);
      Signal(d, target).(
        queue := if fired || explicit then d.queue else Drain(d.queue, key),
        outcomes := d.outcomes + [Outcome(channel, UuidField(u, payload, "conversationId"), TurnOf(payload), status, queued)],
        releases := if status == "sent" || status == "cancelled_queued" then d.releases + [channel] else d.releases)
  }

  // ---------- isolation ----------

  /** A frame that carries a turn leaves the queue alone, and can only use up the line of an exactly matching task. */
  lemma ExplicitTurnIsIsolated(u: UuidCodec, d: Desk, order: seq<TaskId>, payload: Json)
    requires Visits(order, d.tasks) && Get(payload, "turnId").Some?
    ensures
      var e := OnCancel(u, d, order, payload);
      && e.queue == d.queue && e.tasks.Keys == d.tasks.Keys
      && (forall id :: id in d.tasks ==> e.tasks[id] == d.tasks[id] || e.tasks[id] == d.tasks[id].(line := Used))
      && (forall id :: id in d.tasks && e.tasks[id] != d.tasks[id] ==>
            UuidField(u, payload, "channelId").Some? && UuidField(u, payload, "conversationId").Some? && TurnOf(payload).Some?
            && IsExactly(d.tasks[id], UuidField(u, payload, "channelId").value, UuidField(u, payload, "conversationId").value, TurnOf(payload).value))
      && (forall id :: id in e.signals && id !in d.signals ==> id in d.tasks && e.tasks[id] != d.tasks[id])
  {
  }

  /** Where the exact target exists once, is armed and listens, an explicit frame reaches it; otherwise no signal is sent. */
  lemma ExplicitTurnReachesItsTask(
    u: UuidCodec, d: Desk, order: seq<TaskId>, payload: Json, channel: Uuid, conversation: Uuid, turn: string, id: TaskId)
    requires Visits(order, d.tasks) && id in d.tasks && TurnExact(u, payload, channel, conversation, turn)
    requires forall o :: o in d.tasks ==>
      (d.tasks[o].routing == Some(channel) && d.tasks[o].conversation == Some(conversation) && d.tasks[o].turn == turn <==> o == id)
    ensures
      var e := OnCancel(u, d, order, payload);
      && e.signals == (if d.tasks[id].line == Armed(true) then d.signals + [id] else d.signals)
      && |e.outcomes| == |d.outcomes| + 1
      && e.outcomes[|d.outcomes|].status == (if d.tasks[id].line == Armed(true) then "sent" else "no_active_turn")
  {
    hide TurnExact, UuidField, TurnOf;
    PayloadMeans(u, payload);
    assert Get(payload, "turnId").Some? by { TurnIsPresent(payload); }
  }

  lemma TurnIsPresent(payload: Json)
    ensures TurnOf(payload).Some? ==> Get(payload, "turnId").Some?
  {
  }

  /** A payload without a turn names a channel, and a conversation: the one in it, or else the channel's own. */
  ghost predicate Turnless(u: UuidCodec, payload: Json, channel: Uuid, key: Uuid) {
    && Get(payload, "turnId").None? && Identifies(u, payload, "channelId", channel)
    && (Identifies(u, payload, "conversationId", key)
        || (key == channel && forall v: Uuid :: !Identifies(u, payload, "conversationId", v)))
  }

  /** A payload with a turn names a channel, a conversation and a turn, each under its own name. */
  ghost predicate TurnExact(u: UuidCodec, payload: Json, channel: Uuid, conversation: Uuid, turn: string) {
    Identifies(u, payload, "channelId", channel) && Identifies(u, payload, "conversationId", conversation) && Says(payload, "turnId", turn)
  }

  lemma PayloadMeans(u: UuidCodec, payload: Json)
    ensures forall channel: Uuid, key: Uuid :: Turnless(u, payload, channel, key) <==>
      Get(payload, "turnId").None? && UuidField(u, payload, "channelId") == Some(channel) && KeyOf(u, payload, channel) == key
    ensures forall channel: Uuid, conversation: Uuid, turn: string :: TurnExact(u, payload, channel, conversation, turn) <==>
      && UuidField(u, payload, "channelId") == Some(channel) && UuidField(u, payload, "conversationId") == Some(conversation)
      && TurnOf(payload) == Some(turn)
  {
    hide Identifies, Says, UuidField, TextField;
    FieldsMean(u, payload, "channelId");
    FieldsMean(u, payload, "conversationId");
    FieldsMean(u, payload, "turnId");
  }

  /** The status of a frame without a turn: what was signalled, or else what was waiting. */
  function TurnlessStatus(d: Desk, key: Uuid, fired: bool): string {
    if fired then "sent" else if QueuedIn(d.queue, key) > 0 then "cancelled_queued" else "no_active_turn"
  }

  predicate Aimed(d: Desk, channel: Uuid, key: Uuid, id: TaskId) {
    && id in d.tasks
    && (|| (forall o :: o in d.tasks ==> (d.tasks[o].conversation == Some(key) <==> o == id))
        || ((forall o :: o in d.tasks ==> d.tasks[o].conversation != Some(key))
            && (forall o :: o in d.tasks ==> (d.tasks[o].routing == Some(channel) <==> o == id))))
  }

  /** A frame without a turn reaches the only task of its conversation, or, when the conversation has none, the only task
      of its channel: the signal is sent if that task is armed and listening, and its line is used up either way. */
  lemma TurnlessReachesItsTask(u: UuidCodec, d: Desk, order: seq<TaskId>, payload: Json, channel: Uuid, key: Uuid, id: TaskId)
    requires Visits(order, d.tasks) && Turnless(u, payload, channel, key) && Aimed(d, channel, key, id)
    ensures
      var e := OnCancel(u, d, order, payload);
      var fired := d.tasks[id].line == Armed(true);
      && e.signals == (if fired then d.signals + [id] else d.signals)
      && e.tasks == d.tasks[id := d.tasks[id].(line := Used)]
      && |e.outcomes| == |d.outcomes| + 1 && e.outcomes[|d.outcomes|].status == TurnlessStatus(d, key, fired)
  {
    hide Turnless, UuidField, KeyOf, TurnOf;
    PayloadMeans(u, payload);
    LooseIs(d, order, key, channel, id);
  }

  lemma LooseIs(d: Desk, order: seq<TaskId>, key: Uuid, channel: Uuid, id: TaskId)
    requires Visits(order, d.tasks) && Aimed(d, channel, key, id)
    ensures LooseTask(d, order, key, channel) == Some(id)
  {
  }

  /** With no task in its conversation and none, or several, in its channel, it reaches nobody. */
  lemma TurnlessReachesNobody(u: UuidCodec, d: Desk, order: seq<TaskId>, payload: Json, channel: Uuid, key: Uuid)
    requires Visits(order, d.tasks) && Turnless(u, payload, channel, key)
    requires forall o :: o in d.tasks ==> d.tasks[o].conversation != Some(key)
    requires forall id :: id in d.tasks && d.tasks[id].routing == Some(channel) ==>
      exists o :: o in d.tasks && o != id && d.tasks[o].routing == Some(channel)
    ensures
      var e := OnCancel(u, d, order, payload);
      && e.signals == d.signals && e.tasks == d.tasks
      && |e.outcomes| == |d.outcomes| + 1 && e.outcomes[|d.outcomes|].status == TurnlessStatus(d, key, false)
  {
    hide Turnless, UuidField, KeyOf, TurnOf;
    PayloadMeans(u, payload);
    assert LooseTask(d, order, key, channel).None?;
  }

  /** With tasks in its conversation it reaches one of them and no other. */
  lemma ConversationComesFirst(u: UuidCodec, d: Desk, order: seq<TaskId>, payload: Json, channel: Uuid, key: Uuid, any: TaskId)
    requires Visits(order, d.tasks) && Turnless(u, payload, channel, key)
    requires any in d.tasks && d.tasks[any].conversation == Some(key)
    ensures
      var e := OnCancel(u, d, order, payload);
      exists id :: id in d.tasks && d.tasks[id].conversation == Some(key)
        && e.signals == (if d.tasks[id].line == Armed(true) then d.signals + [id] else d.signals)
        && e.tasks == d.tasks[id := d.tasks[id].(line := Used)]
  {
    hide Turnless, UuidField, KeyOf, TurnOf;
    PayloadMeans(u, payload);
    var target := LooseTask(d, order, key, channel);
    assert target.Some? && d.tasks[target.value].conversation == Some(key);
    var id := target.value;
    assert OnCancel(u, d, order, payload).tasks == d.tasks[id := d.tasks[id].(line := Used)];
  }

  /** A frame without a turn drains only its own conversation, and only when nothing was signalled. */
  lemma TurnlessDrainsOnlyItsConversation(u: UuidCodec, d: Desk, order: seq<TaskId>, payload: Json)
    requires Visits(order, d.tasks) && Get(payload, "turnId").None? && UuidField(u, payload, "channelId").Some?
    ensures
      var e := OnCancel(u, d, order, payload);
      var key := KeyOf(u, payload, UuidField(u, payload, "channelId").value);
      && (forall q :: q in d.queue && q != key ==> q in e.queue && e.queue[q] == d.queue[q])
      && (forall q :: q in e.queue ==> q in d.queue)
      && (e.signals == d.signals || e.queue == d.queue)
      && (e.signals == d.signals ==> key !in e.queue && e.outcomes[|d.outcomes|].drained == QueuedIn(d.queue, key))
  {
    assert OnCancel(u, d, order, payload).signals == d.signals
      || |OnCancel(u, d, order, payload).signals| == |d.signals| + 1;
  }

  /** A frame with a valid channel gets one outcome, and releases the lease once exactly when that outcome stopped something. */
  lemma OneOutcomeOneRelease(u: UuidCodec, d: Desk, order: seq<TaskId>, payload: Json)
    requires Visits(order, d.tasks)
    ensures
      var e := OnCancel(u, d, order, payload);
      if UuidField(u, payload, "channelId").None? then e == d
      else
        && |e.outcomes| == |d.outcomes| + 1 && d.outcomes <= e.outcomes
        && e.outcomes[|d.outcomes|].channel == UuidField(u, payload, "channelId").value
        && e.outcomes[|d.outcomes|].conversation == UuidField(u, payload, "conversationId")
        && e.outcomes[|d.outcomes|].turn == TextField(payload, "turnId")
        && var channel := UuidField(u, payload, "channelId").value;
           var stopped := e.signals != d.signals || (Get(payload, "turnId").None? && QueuedIn(d.queue, KeyOf(u, payload, channel)) > 0);
           && e.releases == (if stopped then d.releases + [channel] else d.releases)
           && (stopped <==> e.outcomes[|d.outcomes|].status in {"sent", "cancelled_queued"})
           && (e.outcomes[|d.outcomes|].status == "sent" <==> e.signals != d.signals)
  {
    var e := OnCancel(u, d, order, payload);
    assert e.signals == d.signals || |e.signals| == |d.signals| + 1;
  }

  // ---------- runs ----------

  datatype Event =
    | CancelFrame(payload: Json, order: seq<TaskId>)
    | Started(id: TaskId, task: Task)
    | Ended(id: TaskId)
    | Deafened(id: TaskId)
    | Enqueued(conversation: Uuid, event: EventId)

  /** A new task gets an identifier never used before; a frame visits the tasks there are. */
  ghost predicate Possible(d: Desk, ev: Event) {
    match ev
    case CancelFrame(_, order) => Visits(order, d.tasks)
    case Started(id, _) => id !in d.seen
    case _ => true
  }

  ghost function Happen(u: UuidCodec, d: Desk, ev: Event): Desk
    requires Possible(d, ev)
  {
    match ev
    case CancelFrame(payload, order) => OnCancel(u, d, order, payload)
    case Started(id, task) => d.(tasks := d.tasks[id := task], seen := d.seen + {id})
    case Ended(id) => d.(tasks := d.tasks - {id})
    case Deafened(id) =>
      if id in d.tasks && d.tasks[id].line.Armed? then d.(tasks := d.tasks[id := d.tasks[id].(line := Armed(false))]) else d
    case Enqueued(q, e) => d.(queue := d.queue[q := (if q in d.queue then d.queue[q] else []) + [e]])
  }

  ghost predicate PossibleAll(u: UuidCodec, d: Desk, events: seq<Event>)
    decreases |events|
  {
    events == [] || (Possible(d, events[0]) && PossibleAll(u, Happen(u, d, events[0]), events[1..]))
  }

  ghost function HappenAll(u: UuidCodec, d: Desk, events: seq<Event>): Desk
    requires PossibleAll(u, d, events)
    decreases |events|
  {
    if events == [] then d else HappenAll(u, Happen(u, d, events[0]), events[1..])
  }

  /** No task was signalled twice, and a signalled task has no line left. */
  ghost predicate SignalledOnce(d: Desk) {
    && d.tasks.Keys <= d.seen
    && (forall i :: 0 <= i < |d.signals| ==> d.signals[i] in d.seen)
    && (forall i :: 0 <= i < |d.signals| ==> (d.signals[i] in d.tasks ==> d.tasks[d.signals[i]].line.Used?))
    && (forall i, j :: 0 <= i < j < |d.signals| ==> d.signals[i] != d.signals[j])
  }

  lemma SignalKeepsOnce(d: Desk, target: Option<TaskId>)
    requires SignalledOnce(d)
    ensures SignalledOnce(Signal(d, target))
  {
  }

  lemma EventKeepsOnce(u: UuidCodec, d: Desk, ev: Event)
    requires Possible(d, ev) && SignalledOnce(d)
    ensures SignalledOnce(Happen(u, d, ev))
  {
    if ev.CancelFrame? && UuidField(u, ev.payload, "channelId").Some? {
      SignalKeepsOnce(d, Target(u, d, ev.order, ev.payload, UuidField(u, ev.payload, "channelId").value));
    }
  }

  lemma NoneSignalledYet()
    ensures SignalledOnce(Desk(map[], {}, map[], [], [], []))
  {
  }

  /** Over every run of frames, starts, ends and queueing: a task receives at most one cancel. */
  lemma {:induction false} AtMostOneCancelPerTask(u: UuidCodec, d: Desk, events: seq<Event>)
    requires PossibleAll(u, d, events) && SignalledOnce(d)
    ensures SignalledOnce(HappenAll(u, d, events))
    decreases |events|
  {
    hide Happen, SignalledOnce;
    if events != [] {
      EventKeepsOnce(u, d, events[0]);
      AtMostOneCancelPerTask(u, Happen(u, d, events[0]), events[1..]);
    }
  }

  // ---------- isolation over runs ----------

  function WaitingIn(queue: map<Uuid, seq<EventId>>, q: Uuid): seq<EventId> {
    if q in queue then queue[q] else []
  }

  function EnqueuedFor(events: seq<Event>, q: Uuid): seq<EventId> {
    if events == [] then []
    else (if events[0].Enqueued? && events[0].conversation == q then [events[0].event] else []) + EnqueuedFor(events[1..], q)
  }

  /** A frame that may drain a conversation: it has a channel, carries no turn and names that conversation. */
  predicate MayDrain(u: UuidCodec, ev: Event, q: Uuid) {
    && ev.CancelFrame? && Get(ev.payload, "turnId").None? && UuidField(u, ev.payload, "channelId").Some?
    && KeyOf(u, ev.payload, UuidField(u, ev.payload, "channelId").value) == q
  }

  lemma EventKeepsQueue(u: UuidCodec, d: Desk, ev: Event, q: Uuid)
    requires Possible(d, ev) && !MayDrain(u, ev, q)
    ensures WaitingIn(Happen(u, d, ev).queue, q) == WaitingIn(d.queue, q) + EnqueuedFor([ev], q)
  {
    hide Target, Signal;
    assert [ev][1..] == [];
  }

  lemma EnqueuedSplits(events: seq<Event>, q: Uuid)
    requires events != []
    ensures EnqueuedFor(events, q) == EnqueuedFor([events[0]], q) + EnqueuedFor(events[1..], q)
  {
    assert [events[0]][1..] == [];
  }

  /** Over every run: as long as no frame without a turn names a conversation, what waits in it is what waited before
      and then what was enqueued, in order. Frames that carry a turn, stale and malformed ones included, take nothing. */
  lemma {:induction false} OnlyTurnlessFramesDrain(u: UuidCodec, d: Desk, events: seq<Event>, q: Uuid)
    requires PossibleAll(u, d, events) && forall i :: 0 <= i < |events| ==> !MayDrain(u, events[i], q)
    ensures WaitingIn(HappenAll(u, d, events).queue, q) == WaitingIn(d.queue, q) + EnqueuedFor(events, q)
    decreases |events|
  {
    hide Happen, MayDrain, WaitingIn;
    if events == [] {
      assert WaitingIn(d.queue, q) + [] == WaitingIn(d.queue, q);
    } else {
      EventKeepsQueue(u, d, events[0], q);
      EnqueuedSplits(events, q);
      var rest := events[1..];
      forall i | 0 <= i < |rest| ensures !MayDrain(u, rest[i], q) {
        assert rest[i] == events[i + 1];
      }
      OnlyTurnlessFramesDrain(u, Happen(u, d, events[0]), rest, q);
    }
  }

  /** What may use up or deafen a task's control line. */
  predicate MayTouch(u: UuidCodec, ev: Event, id: TaskId, task: Task) {
    match ev
    case CancelFrame(payload, _) =>
      && UuidField(u, payload, "channelId").Some?
      && var channel := UuidField(u, payload, "channelId").value;
         if Get(payload, "turnId").Some? then
           && UuidField(u, payload, "conversationId").Some? && TurnOf(payload).Some?
           && IsExactly(task, channel, UuidField(u, payload, "conversationId").value, TurnOf(payload).value)
         else task.conversation == Some(KeyOf(u, payload, channel)) || task.routing == Some(channel)
    case Deafened(other) => other == id
    case _ => false
  }

  lemma EventKeepsTask(u: UuidCodec, d: Desk, ev: Event, id: TaskId)
    requires Possible(d, ev) && d.tasks.Keys <= d.seen && id in d.tasks && ev != Ended(id)
    ensures
      var e := Happen(u, d, ev);
      && e.tasks.Keys <= e.seen && id in e.tasks && e.tasks[id] == d.tasks[id].(line := e.tasks[id].line)
      && (e.tasks[id] != d.tasks[id] ==> MayTouch(u, ev, id, d.tasks[id]))
  {
    hide UuidField, TurnOf, KeyOf;
  }

  /** Over every run: a task that does not end keeps its identity, and its control line changes only if it was deafened
      or some frame matched it: exactly, when the frame carries a turn. */
  lemma {:induction false} OnlyMatchingFramesTouch(u: UuidCodec, d: Desk, events: seq<Event>, id: TaskId)
    requires PossibleAll(u, d, events) && d.tasks.Keys <= d.seen && id in d.tasks
    requires forall i :: 0 <= i < |events| ==> events[i] != Ended(id)
    ensures
      var e := HappenAll(u, d, events);
      && id in e.tasks && e.tasks[id] == d.tasks[id].(line := e.tasks[id].line)
      && (e.tasks[id] != d.tasks[id] ==> exists i :: 0 <= i < |events| && MayTouch(u, events[i], id, d.tasks[id]))
    decreases |events|
  {
    hide Happen, Possible;
    if events != [] {
      EventKeepsTask(u, d, events[0], id);
      var n, rest := Happen(u, d, events[0]), events[1..];
      OnlyMatchingFramesTouch(u, n, rest, id);
      if n.tasks[id] == d.tasks[id] && HappenAll(u, d, events).tasks[id] != d.tasks[id] {
        var i :| 0 <= i < |rest| && MayTouch(u, rest[i], id, d.tasks[id]);
        assert events[i + 1] == rest[i];
      }
    }
  }

  // ---------- the books over runs ----------

  predicate Stopped(o: Outcome) {
    o.status == "sent" || o.status == "cancelled_queued"
  }

  /** The channels of the outcomes that stopped something, in order. */
  function ReleasedBy(outcomes: seq<Outcome>): seq<Uuid> {
    if outcomes == [] then []
    else
      var o := outcomes[|outcomes| - 1];
      ReleasedBy(outcomes[..|outcomes| - 1]) + (if Stopped(o) then [o.channel] else [])
  }

  function Sent(outcomes: seq<Outcome>): nat {
    if outcomes == [] then 0
    else Sent(outcomes[..|outcomes| - 1]) + (if outcomes[|outcomes| - 1].status == "sent" then 1 else 0)
  }

  /** How many events outcomes say they drained from a conversation. */
  function DrainedFrom(outcomes: seq<Outcome>, q: Uuid): nat {
    if outcomes == [] then 0
    else
      var o := outcomes[|outcomes| - 1];
      DrainedFrom(outcomes[..|outcomes| - 1], q)
      + (if (if o.conversation.Some? then o.conversation.value else o.channel) == q then o.drained else 0)
  }

  function ValidFrames(u: UuidCodec, events: seq<Event>): nat {
    if events == [] then 0
    else (if events[0].CancelFrame? && UuidField(u, events[0].payload, "channelId").Some? then 1 else 0) + ValidFrames(u, events[1..])
  }

  /** The lease was released for exactly the outcomes that stopped something, and each `sent` is one signal. */
  predicate BooksAgree(d: Desk) {
    d.releases == ReleasedBy(d.outcomes) && |d.signals| == Sent(d.outcomes)
  }

  lemma OutcomeAdds(outcomes: seq<Outcome>, o: Outcome, q: Uuid)
    ensures ReleasedBy(outcomes + [o]) == ReleasedBy(outcomes) + (if Stopped(o) then [o.channel] else [])
    ensures Sent(outcomes + [o]) == Sent(outcomes) + (if o.status == "sent" then 1 else 0)
    ensures DrainedFrom(outcomes + [o], q)
      == DrainedFrom(outcomes, q) + (if (if o.conversation.Some? then o.conversation.value else o.channel) == q then o.drained else 0)
  {
    assert (outcomes + [o])[..|outcomes|] == outcomes;
  }

  lemma EventBooks(u: UuidCodec, d: Desk, ev: Event, q: Uuid)
    requires Possible(d, ev) && BooksAgree(d)
    ensures
      var e := Happen(u, d, ev);
      && BooksAgree(e) && |e.outcomes| == |d.outcomes| + ValidFrames(u, [ev])
      && |WaitingIn(e.queue, q)| + DrainedFrom(e.outcomes, q)
         == |WaitingIn(d.queue, q)| + DrainedFrom(d.outcomes, q) + |EnqueuedFor([ev], q)|
  {
    hide Target, UuidField, TurnOf, ReleasedBy, Sent, DrainedFrom;
    assert [ev][1..] == [];
    var e := Happen(u, d, ev);
    if ev.CancelFrame? && UuidField(u, ev.payload, "channelId").Some? {
      var o := e.outcomes[|d.outcomes|];
      assert e.outcomes == d.outcomes + [o];
      OutcomeAdds(d.outcomes, o, q);
    }
  }

  lemma ValidFramesSplit(u: UuidCodec, events: seq<Event>)
    requires events != []
    ensures ValidFrames(u, events) == ValidFrames(u, [events[0]]) + ValidFrames(u, events[1..])
  {
    assert [events[0]][1..] == [];
  }

  /** Over every run: one outcome for each frame with a valid channel, one release for each outcome that stopped
      something and for no other, one signal for each `sent`, and every event enqueued for a conversation still waits
      there or was reported as drained from it. */
  lemma {:induction false} BooksAlwaysAgree(u: UuidCodec, d: Desk, events: seq<Event>, q: Uuid)
    requires PossibleAll(u, d, events) && BooksAgree(d)
    ensures
      var e := HappenAll(u, d, events);
      && BooksAgree(e) && |e.outcomes| == |d.outcomes| + ValidFrames(u, events)
      && |WaitingIn(e.queue, q)| + DrainedFrom(e.outcomes, q)
         == |WaitingIn(d.queue, q)| + DrainedFrom(d.outcomes, q) + |EnqueuedFor(events, q)|
    decreases |events|
  {
    hide Happen, BooksAgree, WaitingIn, DrainedFrom, Possible;
    if events != [] {
      EventBooks(u, d, events[0], q);
      ValidFramesSplit(u, events);
      EnqueuedSplits(events, q);
      BooksAlwaysAgree(u, Happen(u, d, events[0]), events[1..], q);
    }
  }

  // ---------- the object ----------

  /** The pool's task map and the event queue as the handler updates them. */
  class ControlDesk {
    var tasks: map<TaskId, Task>
    var queue: map<Uuid, seq<EventId>>
    var signals: seq<TaskId>
    var outcomes: seq<Outcome>
    var releases: seq<Uuid>
    ghost var seen: set<TaskId>

    ghost function State(): Desk
      reads this
    {
      Desk(tasks, seen, queue, signals, outcomes, releases)
    }

    constructor ()
      ensures State() == Desk(map[], {}, map[], [], [], [])
    {
      tasks, queue, signals, outcomes, releases, seen := map[], map[], [], [], [], {};
    }

    /** Take the control line of a task and send on it. */
    method SendSignal(target: Option<TaskId>) returns (fired: bool)
      modifies this`tasks, this`signals
      ensures fired == CanSignal(old(State()), target)
      ensures State() == Signal(old(State()), target)
    {
      fired := false;
      if target.Some? && target.value in tasks {
        var id := target.value;
        var line := tasks[id].line;
        if line.Armed? {
          tasks := tasks[id := tasks[id].(line := Used)];
          if line.listening {
            signals := signals + [id];
            fired := true;
          }
        }
      }
    }

    /** Visit the tasks in order until one matches. */
    method FindWhere(order: seq<TaskId>, p: Task -> bool) returns (target: Option<TaskId>)
      requires forall id :: id in order ==> id in tasks
      ensures target == FirstWhere(tasks, order, p)
    {
      for k := 0 to |order|
        invariant FirstWhere(tasks, order, p) == FirstWhere(tasks, order[k..], p)
      {
        if p(tasks[order[k]]) {
          return Some(order[k]);
        }
        assert order[k..][1..] == order[k + 1..];
      }
      target := None;
    }

    /** Another task of the same channel makes routing by channel ambiguous. */
    method HasAnother(order: seq<TaskId>, first: TaskId, channel: Uuid) returns (ambiguous: bool)
      requires forall id :: id in order ==> id in tasks
      ensures ambiguous == exists id :: id in order && id != first && tasks[id].routing == Some(channel)
    {
      for k := 0 to |order|
        invariant forall i :: 0 <= i < k ==> order[i] == first || tasks[order[i]].routing != Some(channel)
      {
        if order[k] != first && tasks[order[k]].routing == Some(channel) {
          return true;
        }
      }
      ambiguous := false;
    }

    method FindExact(order: seq<TaskId>, channel: Uuid, conversation: Uuid, turn: string) returns (target: Option<TaskId>)
      requires Visits(order, tasks)
      ensures target == ExactTask(State(), order, channel, conversation, turn)
    {
      target := FindWhere(order, (task: Task) => IsExactly(task, channel, conversation, turn));
    }

    /** The task of the conversation, or else the channel's only task. */
    method FindLoose(order: seq<TaskId>, key: Uuid, channel: Uuid) returns (target: Option<TaskId>)
      requires Visits(order, tasks)
      ensures target == LooseTask(State(), order, key, channel)
    {
      target := FindWhere(order, (task: Task) => task.conversation == Some(key));
      if target.None? {
        target := FindWhere(order, (task: Task) => task.routing == Some(channel));
        if target.Some? {
          var ambiguous := HasAnother(order, target.value, channel);
          if ambiguous {
            target := None;
          }
        }
      }
    }

    /** The events queued for a conversation are dropped and counted. */
    method DrainChannel(key: Uuid) returns (count: nat)
      modifies this`queue
      ensures count == QueuedIn(old(queue), key) && queue == Drain(old(queue), key)
    {
      count := if key in queue then |queue[key]| else 0;
      queue := queue - {key};
    }

    /** One cancel frame from the observer. */
    method HandleCancelTurnControl(u: UuidCodec, payload: Json, order: seq<TaskId>)
      requires Visits(order, tasks)
      modifies this
      ensures State() == OnCancel(u, old(State()), order, payload)
    {
      hide LooseTask, ExactTask;
      var channelField := UuidField(u, payload, "channelId");
      if channelField.None? {
        return;
      }
      var channel := channelField.value;
      var conversation := UuidField(u, payload, "conversationId");
      var turn := TurnOf(payload);
      var fired, drained := false, 0;
      var status;
      if Get(payload, "turnId").Some? {
        if conversation.Some? && turn.Some? {
          var target := FindExact(order, channel, conversation.value, turn.value);
          fired := SendSignal(target);
        }
        status := if fired then "sent" else "no_active_turn";
      } else {
        var target := FindLoose(order, KeyOf(u, payload, channel), channel);
        fired := SendSignal(target);
        if fired {
          status := "sent";
        } else {
          drained := DrainChannel(KeyOf(u, payload, channel));
          status := if drained == 0 then "no_active_turn" else "cancelled_queued";
        }
      }
      outcomes := outcomes + [Outcome(channel, conversation, turn, status, drained)];
      if status == "sent" || status == "cancelled_queued" {
        releases := releases + [channel];
      }
    }
  }
}
