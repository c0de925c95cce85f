/** The calls a harness makes on one agent client: prompts, plain requests and the two cancels. */
module AcpCalls {
  import opened Options
  import opened JsonValue
  import opened TurnLoop

  /** Times are in milliseconds. */
  const CLEANUP_GRACE: nat := 30_000

  /** `delay` passes between the write of the prompt and the first pass of its loop. */
  datatype PromptCall = PromptCall(
    session: string, idleTimeout: nat, toolIdleTimeout: nat, maxDuration: nat, fate: Fate, delay: nat, script: seq<Input>)

  datatype CancelCall = CancelCall(
    session: string, toolIdleTimeout: nat, permissionFate: Fate, inputFate: Fate, noticeFate: Fate, delay: nat, script: seq<Input>)

  datatype Call =
    | Prompt(prompt: PromptCall)
    | Cancel(cancel: CancelCall)
    | CancelGrace(grace: nat, cancel: CancelCall)
    | Rpc(rpc: string, fate: Fate, script: seq<Input>)
    | InstallReceiver
    | ClearReceiver
    | SetTurn(turn: Option<string>)
    | Wait(d: nat)

  // ---------- prompts ----------

  /** The client while the prompt is being written: the identifier and the deadline are recorded first. */
  function Opened(c: Client, p: PromptCall): Client {
    c.(remainingBudget := None, hardDeadline := Some(c.now + p.maxDuration), lastPromptId := Some(c.nextId), nextId := c.nextId + 1)
  }

  function PromptTurn(c: Client, p: PromptCall): Turn {
    Turn(p.session, c.nextId, p.idleTimeout, p.toolIdleTimeout, p.maxDuration)
  }

  /** The loop of a prompt whose write succeeded. */
  function PromptLoop(c: Client, p: PromptCall): Loop {
    Enter(PromptTurn(c, p), Tick(Written(Opened(c, p), Request(c.nextId, "session/prompt"), Delivered), p.delay), c.now + p.maxDuration)
  }

  predicate IsTimeout(o: Outcome) {
    o.Error? && (o.error.IdleTimeout? || o.error.HardTimeout?)
  }

  /** After the loop: a timeout leaves the prompt to a cancel, and so does a dropped call; everything else closes it. */
  function ClosePrompt(c: Client, o: Outcome): Client {
    if o.Response? then
      c.(remainingBudget :=
           match c.hardDeadline
           case Some(d) => Some(if c.now <= d then d - c.now else 0)
           case None => None,
         lastPromptId := None, hardDeadline := None)
    else if o.Abandoned? || IsTimeout(o) then c
    else c.(pendingInput := None, lastPromptId := None, hardDeadline := None)
  }

  function DoPrompt(c: Client, p: PromptCall): (Client, Outcome) {
    match p.fate
    case Abandon => (Opened(c, p), Abandoned)
    case Broken => (Opened(c, p).(lastPromptId := None, hardDeadline := None), Error(WriteFailed))
    case Delivered =>
      var (d, o) := Finish(Run(PromptTurn(c, p), PromptLoop(c, p), p.script));
      (ClosePrompt(d, o), o)
  }

  // ---------- cancels ----------

  /** A cancel that stops early hands its write's fate to the caller. */
  function FateOutcome(fate: Fate): Outcome
    requires !fate.Delivered?
  {
    if fate.Broken? then Error(WriteFailed) else Abandoned
  }

  /** The prompt is claimed by this cancel and the steer channel is closed before anything is written. */
  function Claimed(c: Client): Client {
    c.(lastPromptId := None, receiver := false)
  }

  predicate OwesPermission(c: Client) {
    c.pendingPermission.Some? && !c.permissionResponded
  }

  /** A pending permission request is answered, unless it was already, and forgotten. */
  function SettlePermission(c: Client): Client {
    if c.pendingPermission.None? then c
    else
      var answered := if c.permissionResponded then c
        else Written(c, Reply(c.pendingPermission.value, PermissionCancelled), Delivered);
      answered.(pendingPermission := None, permissionResponded := false)
  }

  /** A pending user question is answered and forgotten. */
  function SettleInput(c: Client): Client {
    if c.pendingInput.None? then c
    else Written(c, Reply(c.pendingInput.value, ElicitationReply), Delivered).(pendingInput := None)
  }

  function CancelUntil(c: Client, hardDeadline: Time, k: CancelCall): (Client, Outcome) {
    if c.lastPromptId.None? then (c, Error(NoPromptInFlight))
    else if OwesPermission(c) && !k.permissionFate.Delivered? then (Claimed(c), FateOutcome(k.permissionFate))
    else
      var answered := SettlePermission(Claimed(c));
      if answered.pendingInput.Some? && !k.inputFate.Delivered? then (answered, FateOutcome(k.inputFate))
      else
        var quiet := SettleInput(answered);
        if !k.noticeFate.Delivered? then (quiet, FateOutcome(k.noticeFate))
        else Finish(Run(DrainTurn(c, hardDeadline, k), DrainLoop(c, quiet, hardDeadline, k), k.script))
  }

  /** The drain waits for the cancelled prompt's own response, on what is left of the deadline. */
  function DrainTurn(c: Client, hardDeadline: Time, k: CancelCall): Turn
    requires c.lastPromptId.Some?
  {
    var now := c.now + k.delay;
    Turn(k.session, c.lastPromptId.value, CLEANUP_GRACE, k.toolIdleTimeout, if now <= hardDeadline then hardDeadline - now else 0)
  }

  function DrainLoop(c: Client, quiet: Client, hardDeadline: Time, k: CancelCall): Loop
    requires c.lastPromptId.Some?
  {
    Enter(DrainTurn(c, hardDeadline, k), Tick(Written(quiet, Notification("session/cancel", k.session), Delivered), k.delay), hardDeadline)
  }

  /** The ordinary cancel inherits the turn's deadline, with a floor. */
  function CleanupDeadline(c: Client): Time {
    match c.hardDeadline
    case Some(d) => if d > c.now + CLEANUP_GRACE then d else c.now + CLEANUP_GRACE
    case None => c.now + CLEANUP_GRACE
  }

  function DoCancel(c: Client, k: CancelCall): (Client, Outcome) {
    CancelUntil(c.(hardDeadline := None), CleanupDeadline(c), k)
  }

  function DoCancelGrace(c: Client, grace: nat, k: CancelCall): (Client, Outcome) {
    var (d, o) := CancelUntil(c.(hardDeadline := None), c.now + grace, k);
    (d, if o.Error? && o.error.HardTimeout? then Error(CancelDrainTimeout(grace)) else o)
  }

  // ---------- plain requests ----------

  /** A client outside a turn, seen as a loop with nothing in flight. */
  function AsLoop(c: Client): Loop {
    Loop(c, None, 0, 0, 0, None, 0)
  }

  function RpcMethod(c: Client, msg: Json, hint: Hint, fate: Fate): Step {
    match GetStr(msg, "method")
    case None => Continue(AsLoop(c))
    case Some(rpc) =>
      if rpc == "session/update" then Continue(AsLoop(c.(activeRun := RunAfter(c, msg))))
      else if rpc == "_goose/unstable/session/update" then Continue(AsLoop(c))
      else if rpc == "session/request_permission" then OnPermission(AsLoop(c), msg, hint.choosesOption, fate)
      else match Get(msg, "id")
        case None => Continue(AsLoop(c))
        case Some(id) => ReplyAndGoOn(AsLoop(c), Reply(id, MethodNotFound), fate)
  }

  /** One line read while a plain request waits for its response. */
  function RpcPass(c: Client, id: nat, i: Input): Step {
    match i.arm
    case Eof => Exit(c, Error(AgentExited))
    case Oversized => Exit(c, Error(LineTooLong))
    case Unreadable => Exit(c, Error(ReadFailed))
    case Frame(msg, hint) =>
      if AnswersId(msg, id) then Exit(c, PromptOutcome(msg)) else RpcMethod(c, msg, hint, i.fate)
    case _ => Continue(AsLoop(c))
  }

  /** The end of the script is the request's own time limit. */
  function RpcRun(c: Client, id: nat, script: seq<Input>): (Client, Outcome)
    decreases |script|
  {
    if script == [] then (c, Error(RequestTimeout))
    else match RpcPass(c, id, script[0])
      case Exit(d, o) => (d, o)
      case Continue(n) => RpcRun(n.client, id, script[1..])
  }

  function DoRpc(c: Client, rpc: string, fate: Fate, script: seq<Input>): (Client, Outcome) {
    var numbered := c.(nextId := c.nextId + 1);
    if fate.Delivered? then RpcRun(Written(numbered, Request(c.nextId, rpc), fate), c.nextId, script)
    else (numbered, FateOutcome(fate))
  }

  // ---------- runs ----------

  function Apply(c: Client, call: Call): Client {
    match call
    case Prompt(p) => DoPrompt(c, p).0
    case Cancel(k) => DoCancel(c, k).0
    case CancelGrace(grace, k) => DoCancelGrace(c, grace, k).0
    case Rpc(rpc, fate, script) => DoRpc(c, rpc, fate, script).0
    case InstallReceiver => c.(receiver := true)
    case ClearReceiver => c.(receiver := false)
    case SetTurn(turn) => c.(turn := turn)
    case Wait(d) => Tick(c, d)
  }

  function ApplyAll(c: Client, calls: seq<Call>): Client
    decreases |calls|
  {
    if calls == [] then c else ApplyAll(Apply(c, calls[0]), calls[1..])
  }

  /** A client as it is spawned and initialised. */
  function Fresh(steering: bool, strictSteering: bool, now: Time): Client {
    Client(0, None, None, None, None, false, None, None, steering, strictSteering, None, false, now, [], [], {})
  }
}
