/**
 Permission requests: with atomic writes every request the client handles is answered once, is still owed its
 one answer, or was displaced while owed.
 */
module AcpPermissions {
  import opened Options
  import opened JsonValue
  import opened TurnLoop
  import opened AcpCalls

  predicate IsPermissionReply(m: Message) {
    m.Reply? && (m.kind.PermissionChoice? || m.kind.PermissionCancelled?)
  }

  /** How often a request identifier is answered on the wire. */
  ghost function Replies(wire: seq<Message>, id: Json): nat {
    if wire == [] then 0
    else
      var m := wire[|wire| - 1];
      Replies(wire[..|wire| - 1], id) + (if IsPermissionReply(m) && m.to == id then 1 else 0)
  }

  /** The answer a client still owes. */
  ghost function Owed(c: Client, id: Json): nat {
    if OwesPermission(c) && c.pendingPermission == Some(id) then 1 else 0
  }

  /** Answers given or owed. */
  ghost function Balance(c: Client, id: Json): nat {
    Replies(c.wire, id) + Owed(c, id)
  }

  /** The permission request in a frame, if the frame is one and has an identifier. */
  function AskIn(msg: Json): Option<Json> {
    if GetStr(msg, "method") == Some("session/request_permission") then Get(msg, "id") else None
  }

  /** The effect of one step on the permission state: nothing, one request answered, or an exit that owes it. */
  ghost predicate PermissionStep(a: Client, ask: Option<Json>, step: Step) {
    var b := ClientAfter(step);
    match ask
    case None =>
      && b.pendingPermission == a.pendingPermission && b.permissionResponded == a.permissionResponded
      && (b.wire == a.wire || exists m: Message :: !IsPermissionReply(m) && b.wire == a.wire + [m])
    case Some(id) =>
      || (&& b.pendingPermission == None && b.permissionResponded
          && exists m: Message :: IsPermissionReply(m) && m.to == id && b.wire == a.wire + [m])
      || (step.Exit? && LosesSender(step.outcome) && b.pendingPermission == Some(id) && !b.permissionResponded && b.wire == a.wire)
  }

  lemma PermissionPermits(s: Loop, msg: Json, chooses: bool, fate: Fate)
    ensures PermissionStep(s.client, Get(msg, "id"), OnPermission(s, msg, chooses, fate))
  {
    if Get(msg, "id").Some? && fate.Delivered? {
      var m := Reply(Get(msg, "id").value, if chooses then PermissionChoice else PermissionCancelled);
      assert IsPermissionReply(m);
    }
  }

  lemma ReplyPermits(s: Loop, m: Message, fate: Fate)
    requires m.Reply? && !IsPermissionReply(m)
    ensures PermissionStep(s.client, None, ReplyAndGoOn(s, m, fate))
  {
  }

  lemma ElicitationPermits(t: Turn, s: Loop, msg: Json, opens: bool, work: nat, fate: Fate)
    ensures PermissionStep(s.client, None, OnElicitation(t, s, msg, opens, work, fate))
  {
    hide ReplyAndGoOn;
    ReplyPermits(s, Reply(At(msg, "id"), ElicitationReply), fate);
    if Get(msg, "id").Some? {
      ReplyPermits(s, Reply(Get(msg, "id").value, ElicitationReply), fate);
    }
  }

  lemma MethodPermits(t: Turn, s: Loop, msg: Json, hint: Hint, work: nat, fate: Fate)
    ensures PermissionStep(s.client, AskIn(msg), OnMethod(t, s, msg, hint, work, fate))
  {
    hide ReplyAndGoOn, OnElicitation, OnPermission, ServesAgent, RunAfter, StartsTool;
    var rpc := GetStr(msg, "method");
    if rpc == Some("session/request_permission") {
      PermissionPermits(s, msg, hint.choosesOption, fate);
    } else if rpc == Some("elicitation/create") {
      ElicitationPermits(t, s, msg, hint.opensQuestion, work, fate);
    } else if Get(msg, "id").Some? {
      ReplyPermits(s, Reply(Get(msg, "id").value, MethodNotFound), fate);
    }
  }

  lemma FramePermits(t: Turn, s: Loop, msg: Json, hint: Hint, work: nat, fate: Fate)
    ensures PermissionStep(s.client, AskIn(msg), OnFrame(t, s, msg, hint, work, fate))
  {
    hide OnMethod, JudgeAnswer, PromptOutcome;
    var live := Heard(t, s, hint);
    MethodPermits(t, live, msg, hint, work, fate);
  }

  lemma SteerPermits(t: Turn, s: Loop, r: SteerRequest, fate: Fate)
    ensures PermissionStep(s.client, None, OnSteer(t, s, r, fate))
  {
    hide SelectTransport;
    var m := Request(s.client.nextId, SteerRpc(if SelectTransport(t.session, s.client, r).Some? then SelectTransport(t.session, s.client, r).value else Goose));
    assert !IsPermissionReply(m);
  }

  lemma AnswerPermits(t: Turn, s: Loop, work: nat, fate: Fate)
    requires s.question.Some?
    ensures PermissionStep(s.client, None, OnAnswer(t, s, work, fate))
  {
    assert !IsPermissionReply(Reply(s.question.value, ElicitationReply));
  }

  /** The permission request that a pass handles. */
  function AskOf(s: Loop, i: Input): Option<Json> {
    if !Expired(s.(client := Tick(s.client, i.before))) && i.arm.Frame? then AskIn(i.arm.msg) else None
  }

  lemma PassPermits(t: Turn, s: Loop, i: Input)
    ensures PermissionStep(s.client, AskOf(s, i), Pass(t, s, i))
  {
    hide OnFrame, OnSteer, OnAnswer, Expired, TimeoutError, AskIn;
    var woken := s.(client := Tick(Tick(s.client, i.before), i.wait));
    match i.arm
    case Frame(msg, hint) => FramePermits(t, woken, msg, hint, i.work, i.fate);
    case Steer(r) => SteerPermits(t, woken, r, i.fate);
    case Answer =>
      if s.question.Some? { AnswerPermits(t, woken, i.work, i.fate); }
    case _ =>
  }

  /** A remembered request is one that has not been answered. */
  predicate Tidy(c: Client) {
    c.pendingPermission.Some? ==> !c.permissionResponded
  }

  ghost function One(ask: Option<Json>, id: Json): nat {
    if ask == Some(id) then 1 else 0
  }

  /** An owed request is displaced when another request arrives. */
  ghost function Displaced(c: Client, ask: Option<Json>, id: Json): nat {
    if ask.Some? then Owed(c, id) else 0
  }

  /** The books balance after every step: what is given or owed grows by what is asked, less what is displaced. */
  lemma StepBalances(a: Client, ask: Option<Json>, step: Step, id: Json)
    requires PermissionStep(a, ask, step) && Tidy(a)
    ensures Tidy(ClientAfter(step))
    ensures Balance(ClientAfter(step), id) + Displaced(a, ask, id) == Balance(a, id) + One(ask, id)
    ensures step.Continue? ==> Owed(step.loop.client, id) == (if ask.Some? then 0 else Owed(a, id))
  {
    var b := ClientAfter(step);
    if b.wire != a.wire {
      assert b.wire[..|b.wire| - 1] == a.wire;
    }
  }

  /** How often a turn handles a request for permission under an identifier. */
  ghost function Asked(t: Turn, s: Loop, script: seq<Input>, id: Json): nat
    decreases |script|
  {
    if script == [] then 0
    else match Pass(t, s, script[0])
      case Exit(_, _) => One(AskOf(s, script[0]), id)
      case Continue(n) => One(AskOf(s, script[0]), id) + Asked(t, n, script[1..], id)
  }

  ghost predicate AsksAny(t: Turn, s: Loop, script: seq<Input>)
    decreases |script|
  {
    script != [] &&
    (AskOf(s, script[0]).Some? || (Pass(t, s, script[0]).Continue? && AsksAny(t, Pass(t, s, script[0]).loop, script[1..])))
  }

  /**
   The books of a whole turn. Inside a turn each request is answered before the next is read, so only a
   request still owed from an earlier call can be displaced, and only by a turn that is asked for another.
   */
  lemma {:induction false} TurnBalances(t: Turn, s: Loop, script: seq<Input>, id: Json)
    requires Tidy(s.client)
    ensures
      var c := Finish(Run(t, s, script)).0;
      && Tidy(c)
      && Balance(c, id) + (if AsksAny(t, s, script) then Owed(s.client, id) else 0)
         == Balance(s.client, id) + Asked(t, s, script, id)
    decreases |script|
  {
    hide Pass, AskOf, Replies, PermissionStep;
    if script != [] {
      PassPermits(t, s, script[0]);
      var step := Pass(t, s, script[0]);
      StepBalances(s.client, AskOf(s, script[0]), step, id);
      if step.Continue? {
        TurnBalances(t, step.loop, script[1..], id);
      }
    }
  }

  // ---------- plain requests ----------

  function RpcAskOf(id: nat, i: Input): Option<Json> {
    if i.arm.Frame? then AskIn(i.arm.msg) else None
  }

  lemma RpcPassPermits(c: Client, id: nat, i: Input)
    ensures PermissionStep(c, RpcAskOf(id, i), RpcPass(c, id, i))
  {
    hide ReplyAndGoOn, OnPermission, ServesAgent, RunAfter, PromptOutcome;
    if i.arm.Frame? {
      var msg := i.arm.msg;
      if GetStr(msg, "method") == Some("session/request_permission") {
        PermissionPermits(AsLoop(c), msg, i.arm.hint.choosesOption, i.fate);
      } else if Get(msg, "id").Some? {
        ReplyPermits(AsLoop(c), Reply(Get(msg, "id").value, MethodNotFound), i.fate);
      }
    }
  }

  ghost function RpcAsked(c: Client, id: nat, script: seq<Input>, ask: Json): nat
    decreases |script|
  {
    if script == [] then 0
    else match RpcPass(c, id, script[0])
      case Exit(_, _) => One(RpcAskOf(id, script[0]), ask)
      case Continue(n) => One(RpcAskOf(id, script[0]), ask) + RpcAsked(n.client, id, script[1..], ask)
  }

  ghost predicate RpcAsksAny(c: Client, id: nat, script: seq<Input>)
    decreases |script|
  {
    script != [] &&
    (RpcAskOf(id, script[0]).Some?
     || (RpcPass(c, id, script[0]).Continue? && RpcAsksAny(RpcPass(c, id, script[0]).loop.client, id, script[1..])))
  }

  lemma {:induction false} RpcBalances(c: Client, id: nat, script: seq<Input>, ask: Json)
    requires Tidy(c)
    ensures
      var d := RpcRun(c, id, script).0;
      && Tidy(d)
      && Balance(d, ask) + (if RpcAsksAny(c, id, script) then Owed(c, ask) else 0)
         == Balance(c, ask) + RpcAsked(c, id, script, ask)
    decreases |script|
  {
    hide RpcPass, RpcAskOf, Replies, PermissionStep;
    if script != [] {
      RpcPassPermits(c, id, script[0]);
      var step := RpcPass(c, id, script[0]);
      StepBalances(c, RpcAskOf(id, script[0]), step, ask);
      if step.Continue? {
        RpcBalances(step.loop.client, id, script[1..], ask);
      }
    }
  }

  // ---------- whole calls ----------

  /** The state in which a cancel enters its drain, if its writes all succeed. */
  function Drained(c: Client): Client {
    SettleInput(SettlePermission(Claimed(c)))
  }

  predicate ReachesDrain(c: Client, k: CancelCall) {
    && c.lastPromptId.Some?
    && (OwesPermission(c) ==> k.permissionFate.Delivered?)
    && (c.pendingInput.Some? ==> k.inputFate.Delivered?)
    && k.noticeFate.Delivered?
  }

  ghost function CancelAsked(c: Client, hardDeadline: Time, k: CancelCall, id: Json): nat {
    if ReachesDrain(c, k)
    then Asked(DrainTurn(c, hardDeadline, k), DrainLoop(c, Drained(c), hardDeadline, k), k.script, id)
    else 0
  }

  lemma WroteOther(wire: seq<Message>, m: Message, id: Json)
    ensures Replies(wire + [m], id) == Replies(wire, id) + (if IsPermissionReply(m) && m.to == id then 1 else 0)
  {
    assert (wire + [m])[..|wire|] == wire;
  }

  lemma PermissionStage(c: Client, id: Json)
    requires Tidy(c)
    ensures Balance(SettlePermission(c), id) == Balance(c, id)
    ensures SettlePermission(c).pendingPermission.None? && SettlePermission(c).pendingInput == c.pendingInput
  {
    hide Replies;
    if c.pendingPermission.Some? {
      WroteOther(c.wire, Reply(c.pendingPermission.value, PermissionCancelled), id);
    }
  }

  lemma InputStage(c: Client, id: Json)
    ensures Balance(SettleInput(c), id) == Balance(c, id)
    ensures SettleInput(c).pendingPermission == c.pendingPermission
  {
    hide Replies;
    if c.pendingInput.Some? {
      WroteOther(c.wire, Reply(c.pendingInput.value, ElicitationReply), id);
    }
  }

  lemma DrainBalances(c: Client, hardDeadline: Time, k: CancelCall, id: Json)
    requires Tidy(c) && c.lastPromptId.Some?
    ensures
      var d := Finish(Run(DrainTurn(c, hardDeadline, k), DrainLoop(c, Drained(c), hardDeadline, k), k.script)).0;
      Tidy(d) && Balance(d, id) == Balance(c, id)
        + Asked(DrainTurn(c, hardDeadline, k), DrainLoop(c, Drained(c), hardDeadline, k), k.script, id)
  {
    hide Run, Finish, Replies, SettlePermission, SettleInput, Asked, AsksAny;
    PermissionStage(Claimed(c), id);
    InputStage(SettlePermission(Claimed(c)), id);
    WroteOther(Drained(c).wire, Notification("session/cancel", k.session), id);
    TurnBalances(DrainTurn(c, hardDeadline, k), DrainLoop(c, Drained(c), hardDeadline, k), k.script, id);
  }

  /** A cancel answers what is owed before anything else is read, so it displaces nothing. */
  lemma CancelBalances(c: Client, hardDeadline: Time, k: CancelCall, id: Json)
    requires Tidy(c)
    ensures
      var d := CancelUntil(c, hardDeadline, k).0;
      Tidy(d) && Balance(d, id) == Balance(c, id) + CancelAsked(c, hardDeadline, k, id)
  {
    hide Run, Finish, Replies, SettlePermission, SettleInput, Asked, DrainTurn, DrainLoop;
    if c.lastPromptId.Some? {
      PermissionStage(Claimed(c), id);
      InputStage(SettlePermission(Claimed(c)), id);
      DrainBalances(c, hardDeadline, k, id);
    }
  }

  ghost function AskedBy(c: Client, call: Call, id: Json): nat {
    match call
    case Prompt(p) => if p.fate.Delivered? then Asked(PromptTurn(c, p), PromptLoop(c, p), p.script, id) else 0
    case Cancel(k) => CancelAsked(c.(hardDeadline := None), CleanupDeadline(c), k, id)
    case CancelGrace(grace, k) => CancelAsked(c.(hardDeadline := None), c.now + grace, k, id)
    case Rpc(rpc, fate, script) => if fate.Delivered? then RpcAsked(RpcStart(c, rpc), c.nextId, script, id) else 0
    case _ => 0
  }

  function RpcStart(c: Client, rpc: string): Client {
    Written(c.(nextId := c.nextId + 1), Request(c.nextId, rpc), Delivered)
  }

  /** The call is a prompt or plain request, and reads a further permission request. */
  ghost predicate AskedForAnother(c: Client, call: Call) {
    match call
    case Prompt(p) => p.fate.Delivered? && AsksAny(PromptTurn(c, p), PromptLoop(c, p), p.script)
    case Rpc(rpc, fate, script) => fate.Delivered? && RpcAsksAny(RpcStart(c, rpc), c.nextId, script)
    case _ => false
  }

  /** A call displaces an owed request only when it is asked for another. */
  ghost function DisplacedBy(c: Client, call: Call, id: Json): nat {
    if AskedForAnother(c, call) then Owed(c, id) else 0
  }

  /** The parts of a client that the books are about. */
  predicate SameLedger(a: Client, b: Client) {
    a.wire == b.wire && a.pendingPermission == b.pendingPermission && a.permissionResponded == b.permissionResponded
  }

  lemma ClosingKeepsLedger(c: Client, o: Outcome)
    ensures SameLedger(c, ClosePrompt(c, o))
  {
  }

  lemma PromptBalances(c: Client, p: PromptCall, id: Json)
    requires Tidy(c)
    ensures Tidy(DoPrompt(c, p).0)
    ensures Balance(DoPrompt(c, p).0, id) + DisplacedBy(c, Prompt(p), id) == Balance(c, id) + AskedBy(c, Prompt(p), id)
  {
    hide Run, Finish, Balance, Owed, Asked, AsksAny, ClosePrompt, PromptLoop, PromptTurn;
    OpeningKeepsBalance(c, p, id);
    if p.fate.Delivered? {
      TurnBalances(PromptTurn(c, p), PromptLoop(c, p), p.script, id);
      var (d, o) := Finish(Run(PromptTurn(c, p), PromptLoop(c, p), p.script));
      ClosingKeepsLedger(d, o);
      SameLedgerSameBalance(d, ClosePrompt(d, o), id);
    }
  }

  lemma SameLedgerSameBalance(a: Client, b: Client, id: Json)
    requires SameLedger(a, b)
    ensures Balance(a, id) == Balance(b, id) && Owed(a, id) == Owed(b, id) && (Tidy(a) <==> Tidy(b))
  {
  }

  /** Opening a prompt writes a request, which is no reply. */
  lemma OpeningKeepsBalance(c: Client, p: PromptCall, id: Json)
    ensures Balance(PromptLoop(c, p).client, id) == Balance(c, id) && Owed(PromptLoop(c, p).client, id) == Owed(c, id)
    ensures Tidy(PromptLoop(c, p).client) <==> Tidy(c)
    ensures Balance(Opened(c, p), id) == Balance(c, id)
    ensures Balance(Opened(c, p).(lastPromptId := None, hardDeadline := None), id) == Balance(c, id)
  {
    hide Replies;
    WroteOther(c.wire, Request(c.nextId, "session/prompt"), id);
  }

  lemma RpcCallBalances(c: Client, rpc: string, fate: Fate, script: seq<Input>, id: Json)
    requires Tidy(c)
    ensures
      var call := Call.Rpc(rpc, fate, script);
      && Tidy(Apply(c, call))
      && Balance(Apply(c, call), id) + DisplacedBy(c, call, id) == Balance(c, id) + AskedBy(c, call, id)
  {
    hide RpcRun, Replies, RpcAsked, RpcAsksAny;
    if fate.Delivered? {
      WroteOther(c.wire, Request(c.nextId, rpc), id);
      RpcBalances(RpcStart(c, rpc), c.nextId, script, id);
    }
  }

  ghost predicate Balances(c: Client, call: Call, d: Client, id: Json) {
    Tidy(d) && Balance(d, id) + DisplacedBy(c, call, id) == Balance(c, id) + AskedBy(c, call, id)
  }

  lemma CancelCallBalances(c: Client, k: CancelCall, id: Json)
    requires Tidy(c)
    ensures Balances(c, Cancel(k), DoCancel(c, k).0, id)
  {
    hide CancelUntil, CancelAsked, Replies;
    CancelBalances(c.(hardDeadline := None), CleanupDeadline(c), k, id);
  }

  lemma GraceCallBalances(c: Client, grace: nat, k: CancelCall, id: Json)
    requires Tidy(c)
    ensures Balances(c, CancelGrace(grace, k), DoCancelGrace(c, grace, k).0, id)
  {
    hide CancelUntil, CancelAsked, Replies;
    CancelBalances(c.(hardDeadline := None), c.now + grace, k, id);
  }

  lemma CallBalances(c: Client, call: Call, id: Json)
    requires Tidy(c)
    ensures Balances(c, call, Apply(c, call), id)
  {
    hide DoPrompt, DoCancel, DoCancelGrace, DoRpc, Replies, Asked, AsksAny, RpcAsked, RpcAsksAny, CancelAsked;
    match call
    case Prompt(p) => PromptBalances(c, p, id);
    case Cancel(k) => CancelCallBalances(c, k, id);
    case CancelGrace(grace, k) => GraceCallBalances(c, grace, k, id);
    case Rpc(rpc, fate, script) => RpcCallBalances(c, rpc, fate, script, id);
    case _ =>
  }

  ghost function TotalAsked(c: Client, calls: seq<Call>, id: Json): nat
    decreases |calls|
  {
    if calls == [] then 0 else AskedBy(c, calls[0], id) + TotalAsked(Apply(c, calls[0]), calls[1..], id)
  }

  ghost function TotalDisplaced(c: Client, calls: seq<Call>, id: Json): nat
    decreases |calls|
  {
    if calls == [] then 0 else DisplacedBy(c, calls[0], id) + TotalDisplaced(Apply(c, calls[0]), calls[1..], id)
  }

  /** Over every sequence of calls: answers given, owed and displaced add up to the requests handled. */
  lemma {:induction false} EveryRequestIsAccountedFor(c: Client, calls: seq<Call>, id: Json)
    requires Tidy(c)
    ensures
      var d := ApplyAll(c, calls);
      Replies(d.wire, id) + Owed(d, id) + TotalDisplaced(c, calls, id)
      == Replies(c.wire, id) + Owed(c, id) + TotalAsked(c, calls, id)
    decreases |calls|
  {
    hide Apply, AskedBy, DisplacedBy, Replies;
    if calls != [] {
      CallBalances(c, calls[0], id);
      EveryRequestIsAccountedFor(Apply(c, calls[0]), calls[1..], id);
    }
  }

  /** A turn that starts owing nothing and is not cut off in a write ends owing nothing. */
  lemma {:induction false} AnsweredUnlessCut(t: Turn, s: Loop, script: seq<Input>)
    requires s.client.pendingPermission.None?
    ensures var (c, o) := Finish(Run(t, s, script)); !LosesSender(o) ==> c.pendingPermission.None?
    decreases |script|
  {
    hide Pass, AskOf;
    if script != [] {
      PassPermits(t, s, script[0]);
      var step := Pass(t, s, script[0]);
      if step.Continue? {
        AnsweredUnlessCut(t, step.loop, script[1..]);
      }
    }
  }

  lemma CancelAnswersUnlessCut(c: Client, hardDeadline: Time, k: CancelCall)
    requires Tidy(c) && c.lastPromptId.Some?
    ensures var (e, o) := CancelUntil(c, hardDeadline, k); !LosesSender(o) ==> !OwesPermission(e)
  {
    hide Run, Finish, SettlePermission, SettleInput;
    PermissionStage(Claimed(c), Null);
    InputStage(SettlePermission(Claimed(c)), Null);
    AnsweredUnlessCut(DrainTurn(c, hardDeadline, k), DrainLoop(c, Drained(c), hardDeadline, k), k.script);
  }

  /**
   A prompt, ended or abandoned in any way, and then either cancel with any drain: for every identifier the
   replies written, and the one still owed, are as many as the requests asked meanwhile; and a cancel of a
   prompt in flight that is not itself cut off in a write leaves none owed, so each request has its one reply.
   */
  lemma AbandonedPromptIsAnsweredByCancel(c: Client, p: PromptCall, hardDeadline: Time, k: CancelCall, id: Json)
    requires Tidy(c) && !OwesPermission(c)
    ensures
      var d := DoPrompt(c, p).0.(hardDeadline := None);
      var (e, o) := CancelUntil(d, hardDeadline, k);
      && Replies(e.wire, id) + Owed(e, id)
         == Replies(c.wire, id) + AskedBy(c, Prompt(p), id) + CancelAsked(d, hardDeadline, k, id)
      && (d.lastPromptId.Some? && !LosesSender(o) ==> Owed(e, id) == 0)
  {
    hide DoPrompt, CancelUntil, Replies, CancelAsked, AskedBy;
    PromptBalances(c, p, id);
    var d := DoPrompt(c, p).0.(hardDeadline := None);
    SameLedgerSameBalance(DoPrompt(c, p).0, d, id);
    CancelBalances(d, hardDeadline, k, id);
    if d.lastPromptId.Some? {
      CancelAnswersUnlessCut(d, hardDeadline, k);
    }
  }

  // ---------- displaced requests ----------

  /** A call made while a reply is owed loses that reply exactly when it is a prompt or plain request that reads
      another permission request; otherwise the reply is given or still owed afterwards. */
  lemma OwedReplyIsLostExactlyWhen(c: Client, call: Call, id: Json)
    requires Tidy(c) && Owed(c, id) == 1
    ensures
      var d := Apply(c, call);
      Replies(d.wire, id) + Owed(d, id)
      == Replies(c.wire, id) + AskedBy(c, call, id) + (if AskedForAnother(c, call) then 0 else 1)
  {
    hide Apply, Replies, Owed, AskedBy, AsksAny, RpcAsksAny;
    CallBalances(c, call, id);
  }

  /** The caller's rule: no prompt and no plain request while a reply is owed. */
  ghost predicate Careful(c: Client, calls: seq<Call>)
    decreases |calls|
  {
    calls == [] ||
    (((calls[0].Prompt? || calls[0].Rpc?) ==> !OwesPermission(c)) && Careful(Apply(c, calls[0]), calls[1..]))
  }

  /** Under that rule no request is ever displaced: each is answered once, or is the one still owed. */
  lemma {:induction false} CarefulCallersLoseNothing(c: Client, calls: seq<Call>, id: Json)
    requires Tidy(c) && Careful(c, calls)
    ensures TotalDisplaced(c, calls, id) == 0
    ensures
      var d := ApplyAll(c, calls);
      Replies(d.wire, id) + Owed(d, id) == Replies(c.wire, id) + Owed(c, id) + TotalAsked(c, calls, id)
    decreases |calls|
  {
    hide Apply, AskedBy, AsksAny, RpcAsksAny, Replies;
    if calls != [] {
      CallBalances(c, calls[0], id);
      CarefulCallersLoseNothing(Apply(c, calls[0]), calls[1..], id);
    }
  }

  function AskFrame(id: Json): Json {
    Obj(map["method" := Str("session/request_permission"), "id" := id])
  }

  /** A turn that reads one permission request and nothing else. */
  lemma OneAsk(t: Turn, c: Client, hardDeadline: Time, id: Json, hint: Hint, fate: Fate, x: Json)
    requires c.now < hardDeadline && t.idleTimeout > 0
    ensures
      var s, script := Enter(t, c, hardDeadline), [Input(0, 0, 0, fate, Frame(AskFrame(id), hint))];
      && AsksAny(t, s, script) && Asked(t, s, script, x) == One(Some(id), x)
      && (fate.Abandon? ==> Finish(Run(t, s, script)) == (c.(pendingPermission := Some(id), permissionResponded := false), Abandoned))
  {
    hide OnlyReplied, Pass, AskOf, AskFrame;
    var s, i := Enter(t, c, hardDeadline), Input(0, 0, 0, fate, Frame(AskFrame(id), hint));
    OneAskPass(t, c, hardDeadline, id, hint, fate);
    assert [i][1..] == [];
  }

  lemma OneAskPass(t: Turn, c: Client, hardDeadline: Time, id: Json, hint: Hint, fate: Fate)
    requires c.now < hardDeadline && t.idleTimeout > 0
    ensures
      var s, i := Enter(t, c, hardDeadline), Input(0, 0, 0, fate, Frame(AskFrame(id), hint));
      && AskOf(s, i) == Some(id)
      && (fate.Abandon? ==> Pass(t, s, i) == Exit(c.(pendingPermission := Some(id), permissionResponded := false), Abandoned))
  {
    hide OnlyReplied, ReplyAndGoOn, OnElicitation, RunAfter, StartsTool;
    var msg := AskFrame(id);
    assert Get(msg, "id") == Some(id) && GetStr(msg, "method") == Some("session/request_permission");
    assert !AnswersId(msg, t.promptId);
  }

  /** Without it a reply can be lost for good: a prompt abandoned before its reply is written, then another prompt
      that is asked again. The first request is never answered and no longer owed. */
  lemma ReplyCanBeLost(now: Time, hint: Hint)
    ensures
      var first := PromptCall("s", 1, 1, 1, Delivered, 0, [Input(0, 0, 0, Abandon, Frame(AskFrame(Num(1)), hint))]);
      var second := PromptCall("s", 1, 1, 1, Delivered, 0, [Input(0, 0, 0, Delivered, Frame(AskFrame(Num(2)), hint))]);
      var c := Fresh(false, false, now);
      var d := ApplyAll(c, [Prompt(first), Prompt(second)]);
      AskedBy(c, Prompt(first), Num(1)) == 1 && Replies(d.wire, Num(1)) == 0 && Owed(d, Num(1)) == 0
  {
    hide Run, Finish, Asked, AsksAny, Replies;
    var first := PromptCall("s", 1, 1, 1, Delivered, 0, [Input(0, 0, 0, Abandon, Frame(AskFrame(Num(1)), hint))]);
    var second := PromptCall("s", 1, 1, 1, Delivered, 0, [Input(0, 0, 0, Delivered, Frame(AskFrame(Num(2)), hint))]);
    var c := Fresh(false, false, now);
    OneAsk(PromptTurn(c, first), PromptLoop(c, first).client, now + 1, Num(1), hint, Abandon, Num(1));
    var e := DoPrompt(c, first).0;
    assert e == PromptLoop(c, first).client.(pendingPermission := Some(Num(1)), permissionResponded := false);
    OneAsk(PromptTurn(e, second), PromptLoop(e, second).client, now + 1, Num(2), hint, Delivered, Num(1));
    PromptBalances(c, first, Num(1));
    PromptBalances(e, second, Num(1));
    NoRepliesYet(c, Num(1));
    TwoCalls(c, Prompt(first), Prompt(second));
  }

  lemma NoRepliesYet(c: Client, id: Json)
    requires c.wire == []
    ensures Replies(c.wire, id) == 0
  {
  }

  lemma TwoCalls(c: Client, a: Call, b: Call)
    ensures ApplyAll(c, [a, b]) == Apply(Apply(c, a), b)
  {
    hide Apply;
    assert [a, b][1..] == [b] && [b][1..] == [];
    assert ApplyAll(Apply(c, a), [b]) == Apply(Apply(c, a), b);
  }
}
