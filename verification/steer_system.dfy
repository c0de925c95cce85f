/**
 The steer handler, the capacity-one channel, the read loop and the watchers, composed: every steer frame gets
 exactly one result.
 */
module SteerSystem {
  import opened Options
  import opened JsonValue
  import opened TurnLoop
  import opened TurnSettlement
  import TurnWire
  import opened SteerControl

  /** The identity a task is selected by; a first turn may not know its session yet. */
  datatype Identity = Identity(routing: Option<Uuid>, conversation: Option<Uuid>, turn: string, session: Option<string>)

  predicate Selects(id: Identity, f: SteerFrame) {
    && id.routing == Some(f.channel) && id.conversation == Some(f.conversation) && id.turn == f.turn
    && (id.session.None? || id.session == Some(f.session))
  }

  datatype Phase = Idle(client: Client) | Running(turn: Turn, loop: Loop)

  /** A task: its identity, its steer channel, and its client in or out of a turn. */
  datatype Worker = Worker(identity: Identity, isOpen: bool, slot: Option<SteerRequest>, phase: Phase)

  /** `frames` counts the steer frames so far and numbers the next; `watching` holds those whose answer is awaited. */
  datatype System = System(worker: Worker, frames: nat, watching: set<nat>, results: seq<(nat, string)>)

  datatype Action =
    | Submit(payload: Json)
    | Begin(turn: Turn, hardDeadline: Time)
    | Advance(input: Input)
    | Drop
    | Close
    | Report(frame: nat)

  function ClientOf(p: Phase): Client {
    match p
    case Idle(c) => c
    case Running(_, s) => s.client
  }

  function PendingOf(p: Phase): Option<Pending> {
    match p
    case Idle(_) => None
    case Running(_, s) => s.pending
  }

  // ---------- the handler ----------

  /** What happens to a frame at once: a result, or a request for the channel. */
  datatype Reception = Rejected(status: string) | Accepted(request: SteerRequest)

  function Receive(u: UuidCodec, w: Worker, payload: Json, ticket: nat): Reception {
    match ParseSteer(u, payload)
    case Err(_) => Rejected("rejected")
    case Ok(f) =>
      if !Selects(w.identity, f) || !w.isOpen then Rejected("stale_target")
      else if w.slot.Some? then Rejected("busy")
      else Accepted(RequestFor(u, f, ticket))
  }

  function OnSubmit(u: UuidCodec, y: System, payload: Json): System {
    match Receive(u, y.worker, payload, y.frames)
    case Rejected(status) => y.(frames := y.frames + 1, results := y.results + [(y.frames, status)])
    case Accepted(request) =>
      y.(frames := y.frames + 1, watching := y.watching + {y.frames}, worker := y.worker.(slot := Some(request)))
  }

  /** What becomes of a payload that carries a frame: for the task it names, open and with an empty channel, a request with
      the payload's own session, turn, request and prompt; `busy` when the channel is full; `stale_target` otherwise. */
  lemma FrameIsForwarded(u: UuidCodec, y: System, payload: Json, f: SteerFrame)
    requires Carries(u, payload, f)
    ensures
      var z := OnSubmit(u, y, payload);
      var id := y.worker.identity;
      var wanted := && id.routing == Some(f.channel) && id.conversation == Some(f.conversation) && id.turn == f.turn
                    && id.session in {None, Some(f.session)} && y.worker.isOpen;
      && z.frames == y.frames + 1
      && (wanted && y.worker.slot.None? ==>
            && z.worker == y.worker.(slot := Some(SteerRequest(y.frames, [f.prompt], Some(StrictTarget(f.session, f.turn, u.show(f.request))))))
            && z.watching == y.watching + {y.frames} && z.results == y.results)
      && (!(wanted && y.worker.slot.None?) ==>
            && z.worker == y.worker && z.watching == y.watching
            && z.results == y.results + [(y.frames, if wanted then "busy" else "stale_target")])
  {
    hide ParseSteer, Carries;
    ParsedExactlyWhen(u, payload, f);
  }

  /** A payload that carries no frame is rejected at once. */
  lemma MalformedIsRejected(u: UuidCodec, y: System, payload: Json)
    requires forall f :: !Carries(u, payload, f)
    ensures OnSubmit(u, y, payload) == y.(frames := y.frames + 1, results := y.results + [(y.frames, "rejected")])
  {
    hide ParseSteer, Carries;
    if ParseSteer(u, payload).Ok? {
      ParsedExactlyWhen(u, payload, ParseSteer(u, payload).value);
      assert false;
    }
  }

  // ---------- the worker ----------

  /** The steer arm can only offer what is in the channel. */
  function Offered(w: Worker, i: Input): Option<Input> {
    if !i.arm.Steer? then Some(i)
    else if w.slot.Some? then Some(i.(arm := Steer(w.slot.value))) else None
  }

  function OnAdvance(w: Worker, i: Input): Worker {
    if w.phase.Idle? then w
    else match Offered(w, i)
      case None => w
      case Some(input) =>
        var s := w.phase.loop;
        w.(slot := if Takes(s, input) then None else w.slot,
           phase := match Pass(w.phase.turn, s, input)
                    case Continue(n) => Running(w.phase.turn, n)
                    case Exit(c, _) => Idle(c))
  }

  /** The turn's future is dropped between two passes. */
  function OnDrop(w: Worker): Worker {
    if w.phase.Idle? then w else w.(phase := Idle(Finish(Continue(w.phase.loop)).0))
  }

  /** The receiver goes away, outside a turn: a request still in the channel loses its sender. */
  function OnClose(w: Worker): Worker {
    if w.phase.Running? then w
    else
      var c := w.phase.client;
      var log := if w.slot.Some? then c.settled + [(w.slot.value.ticket, SenderDropped)] else c.settled;
      w.(isOpen := false, slot := None, phase := Idle(c.(settled := log, receiver := false)))
  }

  function OnBegin(w: Worker, t: Turn, hardDeadline: Time): Worker {
    if w.phase.Running? then w
    else w.(phase := Running(t, Enter(t, w.phase.client.(receiver := w.isOpen), hardDeadline)))
  }

  // ---------- the watchers ----------

  ghost function FindSettlement(log: seq<(nat, Settlement)>, k: nat): Option<Settlement> {
    if log == [] then None
    else if log[|log| - 1].0 == k then Some(log[|log| - 1].1)
    else FindSettlement(log[..|log| - 1], k)
  }

  /** A watcher wakes when its channel has ended, and reports once. */
  ghost function OnReport(y: System, k: nat): System {
    var c := ClientOf(y.worker.phase);
    match FindSettlement(c.settled, k)
    case Some(st) =>
      if k in y.watching
      then y.(watching := y.watching - {k}, results := y.results + [(k, Classify(st, k in c.dispatched))])
      else y
    case None => y
  }

  ghost function Act(u: UuidCodec, y: System, a: Action): System {
    match a
    case Submit(payload) => OnSubmit(u, y, payload)
    case Begin(t, d) => y.(worker := OnBegin(y.worker, t, d))
    case Advance(i) => y.(worker := OnAdvance(y.worker, i))
    case Drop => y.(worker := OnDrop(y.worker))
    case Close => y.(worker := OnClose(y.worker))
    case Report(k) => OnReport(y, k)
  }

  ghost function ActAll(u: UuidCodec, y: System, actions: seq<Action>): System
    decreases |actions|
  {
    if actions == [] then y else ActAll(u, Act(u, y, actions[0]), actions[1..])
  }

  // ---------- accounting ----------

  ghost function Results(log: seq<(nat, string)>, k: nat): nat {
    if log == [] then 0
    else Results(log[..|log| - 1], k) + (if log[|log| - 1].0 == k then 1 else 0)
  }

  ghost function InSlot(w: Worker, k: nat): nat {
    if w.slot.Some? && w.slot.value.ticket == k then 1 else 0
  }

  /** A request is in the channel, in flight, or settled: this counts where it is. */
  ghost function Places(w: Worker, k: nat): nat {
    InSlot(w, k) + InFlight(PendingOf(w.phase), k) + Settlements(ClientOf(w.phase).settled, k)
  }

  ghost predicate Accounted(y: System, k: nat) {
    && Places(y.worker, k) <= 1
    && (k in y.watching ==> k < y.frames && Places(y.worker, k) == 1)
    && (k >= y.frames ==> Places(y.worker, k) == 0)
    && Results(y.results, k) == (if k < y.frames && k !in y.watching then 1 else 0)
  }

  ghost predicate Wired(w: Worker) {
    && (!w.isOpen ==> w.slot.None?)
    && (w.phase.Running? ==> w.phase.loop.client.receiver == w.isOpen)
  }

  lemma AppendResult(log: seq<(nat, string)>, entry: (nat, string), k: nat)
    ensures Results(log + [entry], k) == Results(log, k) + (if entry.0 == k then 1 else 0)
  {
    assert (log + [entry])[..|log|] == log;
  }

  lemma SubmitAccounted(u: UuidCodec, y: System, payload: Json, k: nat)
    requires Wired(y.worker) && Accounted(y, k) && Accounted(y, y.frames)
    ensures Accounted(OnSubmit(u, y, payload), k)
  {
    hide ParseSteer, Settlements;
    var r := Receive(u, y.worker, payload, y.frames);
    if r.Rejected? {
      AppendResult(y.results, (y.frames, r.status), k);
    }
  }

  /** One pass moves a request from the channel into flight or into the log, and never loses or doubles it. */
  lemma AdvancePlaces(w: Worker, i: Input, k: nat)
    requires w.phase.Running?
    ensures Places(OnAdvance(w, i), k) == Places(w, k)
  {
    hide Pass, Settlements, ReachesSelect;
    var offered := Offered(w, i);
    if offered.Some? {
      PassConserves(w.phase.turn, w.phase.loop, offered.value, k);
    }
  }

  lemma DropPlaces(w: Worker, k: nat)
    ensures Places(OnDrop(w), k) == Places(w, k)
  {
    if w.phase.Running? {
      SettleAccount(w.phase.loop.client, w.phase.loop.pending, SenderDropped, k);
    }
  }

  lemma ClosePlaces(w: Worker, k: nat)
    ensures Places(OnClose(w), k) == Places(w, k)
  {
    if w.phase.Idle? && w.slot.Some? {
      AppendSettles(w.phase.client.settled, (w.slot.value.ticket, SenderDropped), k);
    }
  }

  lemma ActKeepsPlaces(u: UuidCodec, y: System, a: Action, k: nat)
    requires !a.Submit?
    ensures Places(Act(u, y, a).worker, k) == Places(y.worker, k)
  {
    hide Pass, Settlements, FindSettlement;
    match a
    case Advance(i) => if y.worker.phase.Running? { AdvancePlaces(y.worker, i, k); }
    case Drop => DropPlaces(y.worker, k);
    case Close => ClosePlaces(y.worker, k);
    case _ =>
  }

  lemma ReportAccounted(y: System, n: nat, k: nat)
    requires Accounted(y, k)
    ensures Accounted(OnReport(y, n), k)
  {
    hide Places, FindSettlement, Classify, Results;
    var z := OnReport(y, n);
    if z != y {
      AppendResult(y.results, z.results[|y.results|], k);
    }
  }

  lemma ActAccounted(u: UuidCodec, y: System, a: Action, k: nat)
    requires Wired(y.worker) && Accounted(y, k) && Accounted(y, y.frames)
    ensures Accounted(Act(u, y, a), k)
  {
    hide Places, OnSubmit, OnReport, OnAdvance, OnDrop, OnClose, OnBegin, Results;
    match a
    case Submit(payload) => SubmitAccounted(u, y, payload, k);
    case Report(n) => ReportAccounted(y, n, k);
    case _ => ActKeepsPlaces(u, y, a, k);
  }

  lemma ActWired(u: UuidCodec, y: System, a: Action)
    requires Wired(y.worker)
    ensures Wired(Act(u, y, a).worker)
  {
    hide Pass, ParseSteer, FindSettlement;
    if a.Advance? && y.worker.phase.Running? && Offered(y.worker, a.input).Some? {
      TurnWire.ReceiverStays(y.worker.phase.turn, y.worker.phase.loop, Offered(y.worker, a.input).value);
    }
  }

  ghost predicate Consistent(y: System) {
    Wired(y.worker) && forall k: nat :: Accounted(y, k)
  }

  /**
   Over every sequence of frames, passes, drops, closes and reports: a frame has exactly one result unless its
   answer is still awaited, and then it has none.
   */
  lemma {:induction false} EveryFrameAnsweredOnce(u: UuidCodec, y: System, actions: seq<Action>)
    requires Consistent(y)
    ensures Consistent(ActAll(u, y, actions))
    decreases |actions|
  {
    hide Act, Accounted, Wired;
    if actions != [] {
      ActWired(u, y, actions[0]);
      forall k: nat ensures Accounted(Act(u, y, actions[0]), k) {
        ActAccounted(u, y, actions[0], k);
      }
      EveryFrameAnsweredOnce(u, Act(u, y, actions[0]), actions[1..]);
    }
  }

  lemma SettledIsFound(log: seq<(nat, Settlement)>, k: nat)
    requires Settlements(log, k) > 0
    ensures FindSettlement(log, k).Some?
  {
  }

  /** Once the task is over and its channel closed, every awaited frame can be reported, and then has its one result. */
  lemma ClosedTaskStrandsNoFrame(u: UuidCodec, y: System, k: nat)
    requires Consistent(y) && y.worker.phase.Idle? && !y.worker.isOpen && k in y.watching
    ensures FindSettlement(y.worker.phase.client.settled, k).Some?
    ensures Results(Act(u, y, Report(k)).results, k) == 1 && k !in Act(u, y, Report(k)).watching
  {
    assert Accounted(y, k);
    SettledIsFound(y.worker.phase.client.settled, k);
    AppendResult(y.results, (k, Classify(FindSettlement(y.worker.phase.client.settled, k).value, k in y.worker.phase.client.dispatched)), k);
  }

  /** The state before the first frame. */
  lemma StartIsConsistent(id: Identity, isOpen: bool, c: Client)
    requires c.settled == []
    ensures Consistent(System(Worker(id, isOpen, None, Idle(c)), 0, {}, []))
  {
  }

  // ---------- the object ----------

  /** The steer handler's side of the pool, and the results it emits. */
  class SteerDesk {
    var worker: Worker
    var frames: nat
    var watching: set<nat>
    var results: seq<(nat, string)>

    function State(): System
      reads this
    {
      System(worker, frames, watching, results)
    }

    constructor (worker: Worker)
      ensures State() == System(worker, 0, {}, [])
    {
      this.worker, frames, watching, results := worker, 0, {}, [];
    }

    /** Hand a request to the exact task, or say why not. */
    method SendExactSteer(f: SteerFrame, request: SteerRequest) returns (refusal: Option<string>)
      modifies this`worker
      ensures refusal ==
        if !Selects(worker.identity, f) || !worker.isOpen then Some("stale_target")
        else if old(worker).slot.Some? then Some("busy") else None
      ensures worker == if refusal.None? then old(worker).(slot := Some(request)) else old(worker)
    {
      if !Selects(worker.identity, f) || !worker.isOpen {
        return Some("stale_target");
      }
      if worker.slot.Some? {
        return Some("busy");
      }
      worker := worker.(slot := Some(request));
      refusal := None;
    }

    /** One steer frame: a result at once, or a request in the channel and a watcher on its answer. */
    method HandleSteerTurnControl(u: UuidCodec, payload: Json)
      modifies this
      ensures State() == OnSubmit(u, old(State()), payload)
    {
      hide ParseSteer, Selects;
      var ticket := frames;
      frames := frames + 1;
      var parsed := ParseSteer(u, payload);
      if parsed.Err? {
        results := results + [(ticket, "rejected")];
        return;
      }
      var refusal := SendExactSteer(parsed.value, RequestFor(u, parsed.value, ticket));
      if refusal.Some? {
        results := results + [(ticket, refusal.value)];
      } else {
        watching := watching + {ticket};
      }
    }
  }
}
