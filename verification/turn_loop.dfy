/**
 The read loop of one agent turn, as a step function.

 One `Input` is one pass through the loop: the clock readings, the arm that the
 select picked, and the fate of the write that arm makes, if it makes one. A list of
 inputs is a script; running out of script is the caller dropping the turn.
 */
module TurnLoop {
  import opened Options
  import opened JsonValue

  type Time = nat

  // ---------- steering ----------

  datatype StrictTarget = StrictTarget(session: string, turn: string, request: string)

  /** `ticket` names the one-shot reply channel of the request. */
  datatype SteerRequest = SteerRequest(ticket: nat, prompt: seq<string>, target: Option<StrictTarget>)

  datatype Transport = Goose | Extension | Strict

  datatype SteerError =
    | ExpectedRunIdMissing
    | StrictUnsupported
    | StrictTargetMismatch
    | TransportFailed
    | AgentRefused(code: int)
    | StrictOutcome(outcome: string)
    | StrictResponseMismatch
    | OutcomeRejected
    | Busy
    | PromptCompleted

  datatype SteerAck = Success(session: string) | Failed(error: SteerError) | PromptCompletedNeutral

  /** How a reply channel ends: one explicit ack, or its sender going away. */
  datatype Settlement = Answered(ack: SteerAck) | SenderDropped

  datatype Pending = Pending(id: nat, transport: Transport, target: Option<StrictTarget>, request: SteerRequest)

  // ---------- the wire ----------

  datatype ReplyKind = PermissionChoice | PermissionCancelled | ElicitationReply | MethodNotFound

  datatype Message =
    | Request(id: nat, rpc: string)
    | Notification(rpc: string, session: string)
    | Reply(to: Json, kind: ReplyKind)

  /** A write is one atomic success or failure, unless the caller goes away before it. */
  datatype Fate = Delivered | Broken | Abandon

  // ---------- client state ----------

  datatype Client = Client(
    nextId: nat,
    lastPromptId: Option<nat>,
    hardDeadline: Option<Time>,
    remainingBudget: Option<nat>,
    pendingPermission: Option<Json>,
    permissionResponded: bool,
    pendingInput: Option<Json>,
    activeRun: Option<string>,
    steering: bool,
    strictSteering: bool,
    turn: Option<string>,
    receiver: bool,
    now: Time,
    wire: seq<Message>,
    settled: seq<(nat, Settlement)>,
    dispatched: set<nat>)

  // ---------- one turn ----------

  datatype Turn = Turn(session: string, promptId: nat, idleTimeout: nat, toolIdleTimeout: nat, maxDuration: nat)

  datatype Loop = Loop(
    client: Client,
    pending: Option<Pending>,
    idleDeadline: Time,
    hardDeadline: Time,
    lastActivity: Time,
    question: Option<Json>,
    toolDeadline: Time)

  datatype AcpError =
    | IdleTimeout(budget: nat)
    | HardTimeout(silence: nat)
    | AgentExited
    | LineTooLong
    | ReadFailed
    | WriteFailed
    | MissingRequestId
    | AgentFault(error: Json)
    | CancelDrainTimeout(grace: nat)
    | NoPromptInFlight
    | RequestTimeout

  datatype Outcome = Response(result: Json) | Error(error: AcpError) | Abandoned

  datatype Step = Continue(loop: Loop) | Exit(client: Client, outcome: Outcome)

  /** What the parts outside this model decide about a frame. */
  datatype Hint = Hint(toolDeadline: Time, opensQuestion: bool, choosesOption: bool)

  datatype Arm =
    | Eof
    | Oversized
    | Unreadable
    | Blank
    | Garbage
    | Frame(msg: Json, hint: Hint)
    | Steer(request: SteerRequest)
    | Answer
    | Timer

  /** `before`, `wait` and `work` are the time that passes up to the deadline check, in the select, and in the arm. */
  datatype Input = Input(before: nat, wait: nat, work: nat, fate: Fate, arm: Arm)

  // ---------- small effects ----------

  function Tick(c: Client, d: nat): Client {
    c.(now := c.now + d)
  }

  function Settle(c: Client, p: Option<Pending>, s: Settlement): Client {
    if p.Some? then c.(settled := c.settled + [(p.value.request.ticket, s)]) else c
  }

  function Written(c: Client, m: Message, fate: Fate): Client {
    if fate.Delivered? then c.(wire := c.wire + [m]) else c
  }

  /** Leaving through the error of a write: the pending steer's sender goes away with the loop. */
  function Bail(c: Client, p: Option<Pending>, fate: Fate): Step
    requires !fate.Delivered?
  {
    Exit(Settle(c, p, SenderDropped), if fate.Broken? then Error(WriteFailed) else Abandoned)
  }

  /** Leaving on purpose: the pending steer is told that the prompt completed. */
  function Leave(c: Client, p: Option<Pending>, o: Outcome): Step {
    Exit(Settle(c, p, Answered(PromptCompletedNeutral)), o)
  }

  /** Between two states of one turn: only replies were written, and no request, deadline or capability changed. */
  ghost predicate OnlyReplied(a: Client, b: Client) {
    && a.nextId == b.nextId && a.lastPromptId == b.lastPromptId && a.hardDeadline == b.hardDeadline
    && a.remainingBudget == b.remainingBudget && a.dispatched == b.dispatched && a.receiver == b.receiver
    && a.steering == b.steering && a.strictSteering == b.strictSteering && a.turn == b.turn
    && a.now <= b.now
    && (b.wire == a.wire || exists m: Message :: m.Reply? && b.wire == a.wire + [m])
  }

  /** The exits that lose the sender of a steer in flight instead of answering it. */
  predicate LosesSender(o: Outcome) {
    o.Abandoned? || (o.Error? && (o.error.WriteFailed? || o.error.MissingRequestId?))
  }

  /** A step that only serves the agent: it leaves the steer, its log and the hard deadline alone. */
  ghost predicate ServesAgent(s: Loop, step: Step) {
    match step
    case Continue(n) =>
      && OnlyReplied(s.client, n.client) && n.client.settled == s.client.settled
      && n.pending == s.pending && n.hardDeadline == s.hardDeadline
    case Exit(c, o) =>
      && OnlyReplied(s.client, c) && LosesSender(o)
      && c.settled == Settle(s.client, s.pending, SenderDropped).settled
  }

  // ---------- deadlines ----------

  function Later(a: Time, b: Time): Time { if a < b then b else a }

  function SilenceDeadline(s: Loop): Time { Later(s.idleDeadline, s.toolDeadline) }

  predicate IdleFirst(s: Loop) { SilenceDeadline(s) < s.hardDeadline }

  function NextDeadline(s: Loop): Time {
    if IdleFirst(s) then SilenceDeadline(s) else s.hardDeadline
  }

  function TimeoutError(t: Turn, s: Loop, now: Time): AcpError {
    if IdleFirst(s) then
      IdleTimeout(if s.idleDeadline < SilenceDeadline(s) then t.toolIdleTimeout else t.idleTimeout)
    else
      HardTimeout(if s.lastActivity <= now then now - s.lastActivity else 0)
  }

  // ---------- steering ----------

  const GOOSE_STEER := "_goose/unstable/session/steer"
  const ACP_STEER := "_session/steering"

  function SteerRpc(tr: Transport): string {
    if tr.Goose? then GOOSE_STEER else ACP_STEER
  }

  /** The transport a request may use right now, if there is one. */
  function SelectTransport(session: string, c: Client, r: SteerRequest): Option<Transport> {
    match r.target
    case Some(target) =>
      if !c.strictSteering || target.session != session || c.turn != Some(target.turn) then None else Some(Strict)
    case None =>
      if c.activeRun.Some? then Some(Goose) else if c.steering then Some(Extension) else None
  }

  function RefusalOf(c: Client, r: SteerRequest): SteerError {
    if r.target.Some? then
      if c.strictSteering then StrictTargetMismatch else StrictUnsupported
    else
      ExpectedRunIdMissing
  }

  function OnSteer(t: Turn, s: Loop, r: SteerRequest, fate: Fate): Step {
    var c := s.client;
    match SelectTransport(t.session, c, r)
    case None =>
      Continue(s.(client := c.(settled := c.settled + [(r.ticket, Answered(Failed(RefusalOf(c, r))))])))
    case Some(tr) =>
      var numbered := c.(nextId := c.nextId + 1);
      match fate
      case Delivered =>
        Continue(s.(
          client := numbered.(wire := c.wire + [Request(c.nextId, SteerRpc(tr))], dispatched := c.dispatched + {r.ticket}),
          pending := Some(Pending(c.nextId, tr, if tr.Strict? then r.target else None, r))))
      case Broken =>
        Continue(s.(client := numbered.(settled := c.settled + [(r.ticket, Answered(Failed(TransportFailed)))])))
      case Abandon =>
        Exit(numbered.(settled := c.settled + [(r.ticket, SenderDropped)]), Abandoned)
  }

  /** What the answer to a steer means: the ack, and whether the awaited turn goes on with a new budget. */
  datatype Verdict = Verdict(ack: SteerAck, renews: bool)

  predicate IsTerminalOutcome(outcome: string) {
    outcome == "stale_target" || outcome == "rejected" || outcome == "busy" || outcome == "expired"
  }

  function StrictVerdict(t: Turn, target: Option<StrictTarget>, result: Json): SteerAck {
    if target.None?
      || GetStr(result, "requestId") != Some(target.value.request)
      || GetStr(result, "turnId") != Some(target.value.turn)
    then Failed(StrictResponseMismatch)
    else match GetStr(result, "outcome")
      case None => Failed(OutcomeRejected)
      case Some(outcome) =>
        if outcome == "appended" then Success(t.session)
        else if IsTerminalOutcome(outcome) then Failed(StrictOutcome(outcome))
        else Failed(OutcomeRejected)
  }

  function ErrorCode(error: Json): int {
    var code := At(error, "code");
    if code.Num? then code.n else -1
  }

  function JudgeAnswer(t: Turn, p: Pending, msg: Json): Verdict {
    match Get(msg, "error")
    case Some(error) =>
      Verdict(Failed(if p.transport.Strict? then StrictOutcome("rejected") else AgentRefused(ErrorCode(error))), false)
    case None =>
      match p.transport
      case Strict => Verdict(StrictVerdict(t, p.target, At(msg, "result")), false)
      case Goose => Verdict(Success(t.session), true)
      case Extension =>
        var outcome := GetStr(At(msg, "result"), "outcome");
        if outcome == Some("injected") then Verdict(Success(t.session), true)
        else if outcome == Some("startedNewTurn") then Verdict(Success(t.session), false)
        else Verdict(Failed(OutcomeRejected), false)
  }

  function OnSteerAnswer(t: Turn, s: Loop, p: Pending, msg: Json, work: nat): Step {
    var verdict := JudgeAnswer(t, p, msg);
    var c := Settle(Tick(s.client, work), Some(p), Answered(verdict.ack));
    var renewed := c.now + t.maxDuration;
    if verdict.renews && renewed > s.hardDeadline then
      Continue(s.(client := c.(hardDeadline := Some(renewed)), pending := None, hardDeadline := renewed))
    else
      Continue(s.(client := c, pending := None))
  }

  // ---------- agent requests ----------

  /** The run identifier after a session update. */
  function RunAfter(c: Client, msg: Json): Option<string> {
    var update := At(At(msg, "params"), "update");
    if GetStr(update, "sessionUpdate") != Some("session_info_update") then c.activeRun
    else match Get(At(At(update, "_meta"), "goose"), "activeRunId")
      case Some(Str(run)) => Some(run)
      case Some(Null) => None
      case _ => c.activeRun
  }

  predicate StartsTool(msg: Json) {
    GetStr(At(At(msg, "params"), "update"), "sessionUpdate") == Some("tool_call")
  }

  /** A permission request is remembered until its reply has been written. */
  function OnPermission(s: Loop, msg: Json, chooses: bool, fate: Fate): (step: Step)
    ensures ServesAgent(s, step)
  {
    match Get(msg, "id")
    case None => Exit(Settle(s.client, s.pending, SenderDropped), Error(MissingRequestId))
    case Some(id) =>
      var asked := s.client.(pendingPermission := Some(id), permissionResponded := false);
      if fate.Delivered? then
        var m := Reply(id, if chooses then PermissionChoice else PermissionCancelled);
        Continue(s.(client := Written(asked, m, fate).(pendingPermission := None, permissionResponded := true)))
      else Bail(asked, s.pending, fate)
  }

  function ReplyAndGoOn(s: Loop, m: Message, fate: Fate): (step: Step)
    requires m.Reply?
    ensures ServesAgent(s, step)
  {
    if fate.Delivered? then Continue(s.(client := Written(s.client, m, fate)))
    else Bail(s.client, s.pending, fate)
  }

  function OnElicitation(t: Turn, s: Loop, msg: Json, opens: bool, work: nat, fate: Fate): (step: Step)
    ensures ServesAgent(s, step)
  {
    if s.question.Some? then ReplyAndGoOn(s, Reply(At(msg, "id"), ElicitationReply), fate)
    else match Get(msg, "id")
      case None => Exit(Settle(s.client, s.pending, SenderDropped), Error(MissingRequestId))
      case Some(id) =>
        if opens then
          var c := Tick(s.client, work).(pendingInput := Some(id));
          Continue(s.(client := c, question := Some(id), idleDeadline := c.now + t.idleTimeout, lastActivity := c.now))
        else ReplyAndGoOn(s, Reply(id, ElicitationReply), fate)
  }

  function OnMethod(t: Turn, s: Loop, msg: Json, hint: Hint, work: nat, fate: Fate): (step: Step)
    ensures ServesAgent(s, step)
  {
    match GetStr(msg, "method")
    case None => Continue(s)
    case Some(rpc) =>
      if rpc == "session/update" then
        var c := s.client.(activeRun := RunAfter(s.client, msg));
        if StartsTool(msg) then
          var later := Tick(c, work);
          Continue(s.(client := later, idleDeadline := later.now + t.idleTimeout, lastActivity := later.now))
        else Continue(s.(client := c))
      else if rpc == "_goose/unstable/session/update" then Continue(s)
      else if rpc == "session/request_permission" then OnPermission(s, msg, hint.choosesOption, fate)
      else if rpc == "elicitation/create" then OnElicitation(t, s, msg, hint.opensQuestion, work, fate)
      else match Get(msg, "id")
        case None => Continue(s)
        case Some(id) => ReplyAndGoOn(s, Reply(id, MethodNotFound), fate)
  }

  // ---------- frames ----------

  /** A response carries an id and no method; a frame with a method is never one. */
  predicate IsResponse(msg: Json) {
    Get(msg, "id").Some? && Get(msg, "method").None?
  }

  predicate AnswersId(msg: Json, id: nat) {
    IsResponse(msg) && Get(msg, "id") == Some(Num(id))
  }

  function PromptOutcome(msg: Json): Outcome {
    match Get(msg, "error")
    case Some(error) => Error(AgentFault(error))
    case None => Response(At(msg, "result"))
  }

  /** The loop as a frame finds it: any frame is a sign of life. */
  function Heard(t: Turn, s: Loop, hint: Hint): Loop {
    s.(idleDeadline := s.client.now + t.idleTimeout, lastActivity := s.client.now, toolDeadline := hint.toolDeadline)
  }

  function OnFrame(t: Turn, s: Loop, msg: Json, hint: Hint, work: nat, fate: Fate): Step {
    var live := Heard(t, s, hint);
    if s.pending.Some? && AnswersId(msg, s.pending.value.id) then OnSteerAnswer(t, live, s.pending.value, msg, work)
    else if AnswersId(msg, t.promptId) then Leave(s.client, s.pending, PromptOutcome(msg))
    else OnMethod(t, live, msg, hint, work, fate)
  }

  /** The user answered: reply, then restart both clocks. */
  function OnAnswer(t: Turn, s: Loop, work: nat, fate: Fate): Step
    requires s.question.Some?
  {
    var quiet := s.client.(pendingInput := None);
    if fate.Delivered? then
      var c := Tick(Written(quiet, Reply(s.question.value, ElicitationReply), fate), work);
      var renewed := c.now + t.maxDuration;
      Continue(s.(
        client := c.(hardDeadline := Some(renewed)),
        question := None,
        idleDeadline := c.now + t.idleTimeout,
        hardDeadline := renewed,
        lastActivity := c.now))
    else Bail(quiet, s.pending, fate)
  }

  /** The select. An arm whose guard is off leaves the loop where it is. */
  function Select(t: Turn, s: Loop, i: Input): Step {
    match i.arm
    case Eof => Leave(s.client, s.pending, Error(AgentExited))
    case Oversized => Leave(s.client, s.pending, Error(LineTooLong))
    case Unreadable => Leave(s.client, s.pending, Error(ReadFailed))
    case Blank => Continue(s)
    case Garbage => Continue(s)
    case Frame(msg, hint) => OnFrame(t, s, msg, hint, i.work, i.fate)
    case Steer(request) => if TakesSteer(s) then OnSteer(t, s, request, i.fate) else Continue(s)
    case Answer => if s.question.Some? then OnAnswer(t, s, i.work, i.fate) else Continue(s)
    case Timer => if Expired(s) then TimeOut(t, s) else Continue(s)
  }

  /** One pass through the loop: the deadline check, then the select. */
  function Pass(t: Turn, s: Loop, i: Input): Step {
    var checked := s.(client := Tick(s.client, i.before));
    if Expired(checked) then TimeOut(t, checked)
    else Select(t, s.(client := Tick(checked.client, i.wait)), i)
  }

  /** The deadline that fires first has passed, and no question holds the clocks. */
  predicate Expired(s: Loop) {
    s.question.None? && s.client.now >= NextDeadline(s)
  }

  function TimeOut(t: Turn, s: Loop): Step {
    Leave(s.client, s.pending, Error(TimeoutError(t, s, s.client.now)))
  }

  /** The steer arm is off while a steer is in flight and when no receiver is installed. */
  predicate TakesSteer(s: Loop) {
    s.pending.None? && s.client.receiver
  }

  function ClientAfter(step: Step): Client {
    match step
    case Continue(n) => n.client
    case Exit(c, _) => c
  }

  /** The loop over a script. */
  function Run(t: Turn, s: Loop, script: seq<Input>): Step
    decreases |script|
  {
    if script == [] then Continue(s)
    else match Pass(t, s, script[0])
      case Exit(c, o) => Exit(c, o)
      case Continue(next) => Run(t, next, script[1..])
  }

  /** The loop over a script, with the turn dropped where the script ends. */
  function Finish(step: Step): (Client, Outcome) {
    match step
    case Exit(c, o) => (c, o)
    case Continue(s) => (Settle(s.client, s.pending, SenderDropped), Abandoned)
  }

  function Enter(t: Turn, c: Client, hardDeadline: Time): Loop {
    Loop(c, None, c.now + t.idleTimeout, hardDeadline, c.now, None, 0)
  }
}
