/** What each call of a client puts on the wire, and whose answer it returns. */
module AcpWire {
  import opened Options
  import opened JsonValue
  import opened TurnLoop
  import opened TurnDeadlines
  import opened TurnSilence
  import opened TurnRouting
  import opened TurnWire
  import opened AcpCalls

  // ---------- prompts ----------

  /** A prompt writes its own request under the next identifier, then what its loop owes; if that first write fails, nothing. */
  lemma PromptWrites(c: Client, p: PromptCall)
    ensures DoPrompt(c, p).0.wire ==
      if p.fate.Delivered?
      then c.wire + [Request(c.nextId, "session/prompt")] + RunWire(PromptTurn(c, p), PromptLoop(c, p), p.script)
      else c.wire
    ensures p.fate.Broken? ==> DoPrompt(c, p).1 == Error(WriteFailed)
    ensures p.fate.Abandon? ==> DoPrompt(c, p).1 == Abandoned
  {
    hide Run, Finish, RunWire;
    RunWrites(PromptTurn(c, p), PromptLoop(c, p), p.script);
  }

  /** A prompt returns a result only from a frame that answers the identifier it was sent under. */
  lemma PromptReturnsItsResult(c: Client, p: PromptCall) returns (k: nat, n: Loop)
    requires DoPrompt(c, p).1.Response?
    ensures p.fate.Delivered? && k < |p.script| && Run(PromptTurn(c, p), PromptLoop(c, p), p.script[..k]) == Continue(n)
    ensures p.script[k].arm.Frame? && AnswersId(p.script[k].arm.msg, c.nextId) && Conveys(p.script[k].arm.msg, DoPrompt(c, p).1)
  {
    hide Run, Finish, Conveys, PromptLoop;
    k, n := ResultComesFromItsFrame(PromptTurn(c, p), PromptLoop(c, p), p.script);
  }

  /** The budget a finished prompt saves is what was left of its deadline: of the one it started with, unless it was renewed. */
  lemma SavedBudgetIsWhatIsLeft(c: Client, p: PromptCall)
    requires DoPrompt(c, p).1.Response?
    ensures
      var e := Finish(Run(PromptTurn(c, p), PromptLoop(c, p), p.script)).0;
      && e.hardDeadline.Some?
      && DoPrompt(c, p).0.remainingBudget == Some(if e.now <= e.hardDeadline.value then e.hardDeadline.value - e.now else 0)
      && (!RenewsDuring(PromptTurn(c, p), PromptLoop(c, p), p.script) ==> e.hardDeadline == Some(c.now + p.maxDuration))
  {
    hide Run, Finish, RenewsDuring;
    HardDeadlineOverRun(PromptTurn(c, p), PromptLoop(c, p), p.script);
  }

  /** A prompt that fails otherwise than by a timeout forgets the question it had open; one that timed out or was dropped
      keeps it for the cancel to answer. */
  lemma FailedPromptForgetsItsQuestion(c: Client, p: PromptCall)
    requires p.fate.Delivered? && DoPrompt(c, p).1.Error?
    ensures
      var e := Finish(Run(PromptTurn(c, p), PromptLoop(c, p), p.script)).0;
      DoPrompt(c, p).0.pendingInput ==
        if DoPrompt(c, p).1.error.IdleTimeout? || DoPrompt(c, p).1.error.HardTimeout? then e.pendingInput else None
  {
    hide Run, Finish;
  }

  // ---------- cancels ----------

  /** What a cancel owes before it may notify: the reply to an unanswered permission request, then to an open question. */
  function Debts(c: Client): seq<Message> {
    (if c.pendingPermission.Some? && !c.permissionResponded then [Reply(c.pendingPermission.value, PermissionCancelled)] else [])
    + (if c.pendingInput.Some? then [Reply(c.pendingInput.value, ElicitationReply)] else [])
  }

  /** All writes up to and with the notice are delivered. */
  predicate GetsThrough(c: Client, k: CancelCall) {
    && (c.pendingPermission.Some? && !c.permissionResponded ==> k.permissionFate.Delivered?)
    && (c.pendingInput.Some? ==> k.inputFate.Delivered?)
    && k.noticeFate.Delivered?
  }

  predicate OnlyReplies(wire: seq<Message>) {
    forall i :: 0 <= i < |wire| ==> wire[i].Reply?
  }

  lemma StagesWrite(c: Client)
    ensures SettleInput(SettlePermission(Claimed(c))).wire == c.wire + Debts(c)
    ensures !SettleInput(SettlePermission(Claimed(c))).receiver
  {
  }

  /** A cancel of a prompt in flight whose writes get through appends its debts, exactly one `session/cancel` for its
      session, and after that nothing but replies; one that is cut before that sends no notice at all. */
  lemma CancelWrites(c: Client, hardDeadline: Time, k: CancelCall) returns (after: seq<Message>)
    requires c.lastPromptId.Some?
    ensures GetsThrough(c, k) ==>
      CancelUntil(c, hardDeadline, k).0.wire == c.wire + Debts(c) + [Notification("session/cancel", k.session)] + after && OnlyReplies(after)
    ensures !GetsThrough(c, k) ==>
      CancelUntil(c, hardDeadline, k).0.wire == c.wire + after && after <= Debts(c) && !CancelUntil(c, hardDeadline, k).1.Response?
  {
    hide Run, Finish, RunWire;
    var quiet := SettleInput(SettlePermission(Claimed(c)));
    StagesWrite(c);
    if GetsThrough(c, k) {
      var t, s := DrainTurn(c, hardDeadline, k), DrainLoop(c, quiet, hardDeadline, k);
      RunWrites(t, s, k.script);
      DeafRunOnlyReplies(t, s, k.script);
      after := RunWire(t, s, k.script);
    } else {
      var e := CancelUntil(c, hardDeadline, k).0;
      after := e.wire[|c.wire|..];
    }
  }

  /** A cancel returns a result only from a frame that answers the prompt it consumed. */
  lemma CancelReturnsItsPrompt(c: Client, hardDeadline: Time, k: CancelCall) returns (j: nat)
    requires CancelUntil(c, hardDeadline, k).1.Response?
    ensures c.lastPromptId.Some? && GetsThrough(c, k) && j < |k.script|
    ensures k.script[j].arm.Frame? && AnswersId(k.script[j].arm.msg, c.lastPromptId.value)
    ensures Conveys(k.script[j].arm.msg, CancelUntil(c, hardDeadline, k).1)
  {
    hide Run, Finish, Conveys;
    var quiet := SettleInput(SettlePermission(Claimed(c)));
    var t, s := DrainTurn(c, hardDeadline, k), DrainLoop(c, quiet, hardDeadline, k);
    var n;
    j, n := ResultComesFromItsFrame(t, s, k.script);
  }

  /** Either cancel, of a prompt in flight: the wire after it, and whose result it returns. */
  lemma EitherCancelNotifies(c: Client, grace: nat, k: CancelCall)
    requires c.lastPromptId.Some? && GetsThrough(c, k)
    ensures c.wire + Debts(c) + [Notification("session/cancel", k.session)] <= DoCancel(c, k).0.wire
    ensures c.wire + Debts(c) + [Notification("session/cancel", k.session)] <= DoCancelGrace(c, grace, k).0.wire
    ensures OnlyReplies(DoCancel(c, k).0.wire[|c.wire + Debts(c)| + 1..])
    ensures OnlyReplies(DoCancelGrace(c, grace, k).0.wire[|c.wire + Debts(c)| + 1..])
    ensures DoCancel(c, k).1.Response? || DoCancelGrace(c, grace, k).1.Response? ==>
      exists j :: 0 <= j < |k.script| && k.script[j].arm.Frame? && AnswersId(k.script[j].arm.msg, c.lastPromptId.value)
  {
    hide CancelUntil, CleanupDeadline;
    var d := c.(hardDeadline := None);
    assert Debts(d) == Debts(c) && GetsThrough(d, k);
    var a := CancelWrites(d, CleanupDeadline(c), k);
    var b := CancelWrites(d, c.now + grace, k);
    var head := c.wire + Debts(c) + [Notification("session/cancel", k.session)];
    assert DoCancel(c, k).0.wire[|head|..] == a && DoCancelGrace(c, grace, k).0.wire[|head|..] == b;
    if DoCancel(c, k).1.Response? {
      var j := CancelReturnsItsPrompt(d, CleanupDeadline(c), k);
    }
    if DoCancelGrace(c, grace, k).1.Response? {
      var j := CancelReturnsItsPrompt(d, c.now + grace, k);
    }
  }

  /** The drain gives a mute agent 30 seconds, from the readings of its inputs alone. */
  lemma MuteDrainTimesOut(c: Client, hardDeadline: Time, k: CancelCall, j: nat)
    requires c.lastPromptId.Some? && GetsThrough(c, k) && Mute(k.script) && c.now + k.delay + 30_000 < hardDeadline
    requires j < |k.script| && Elapsed(k.script[..j]) >= 30_000
    ensures CancelUntil(c, hardDeadline, k).1 == Error(IdleTimeout(30_000))
  {
    hide Run, Finish, Elapsed;
    var quiet := SettleInput(SettlePermission(Claimed(c)));
    var t, s := DrainTurn(c, hardDeadline, k), DrainLoop(c, quiet, hardDeadline, k);
    MuteAgentTimesOut(t, s.client, hardDeadline, k.script);
  }

  lemma {:induction false} MuteLeavesDebts(t: Turn, s: Loop, script: seq<Input>)
    requires Mute(script)
    ensures
      var d := Finish(Run(t, s, script)).0;
      d.pendingPermission == s.client.pendingPermission && d.pendingInput == s.client.pendingInput
    decreases |script|
  {
    hide Expired, TimeoutError;
    if script != [] {
      var step := Pass(t, s, script[0]);
      if step.Continue? {
        MuteLeavesDebts(t, step.loop, script[1..]);
      }
    }
  }

  /** A cancel that gets through pays its debts: with nothing read in its drain, nothing is owed after it. */
  lemma CancelPaysItsDebts(c: Client, hardDeadline: Time, k: CancelCall)
    requires c.lastPromptId.Some? && GetsThrough(c, k) && Mute(k.script)
    ensures
      var d := CancelUntil(c, hardDeadline, k).0;
      d.pendingPermission == None && d.pendingInput == None && Debts(d) == []
  {
    hide Run, Finish;
    var quiet := SettleInput(SettlePermission(Claimed(c)));
    MuteLeavesDebts(DrainTurn(c, hardDeadline, k), DrainLoop(c, quiet, hardDeadline, k), k.script);
  }

  /** The drain works on what is left of its deadline: however often questions renew it, at no point does it have more time
      before it than it had when it began. */
  lemma DrainNeverGainsTime(c: Client, quiet: Client, hardDeadline: Time, k: CancelCall)
    requires c.lastPromptId.Some? && quiet.now == c.now
    ensures
      var step := Run(DrainTurn(c, hardDeadline, k), DrainLoop(c, quiet, hardDeadline, k), k.script);
      var began := c.now + k.delay;
      step.Continue? ==> step.loop.hardDeadline <= step.loop.client.now + (if began <= hardDeadline then hardDeadline - began else 0)
  {
    hide Run;
    HardDeadlineOverRun(DrainTurn(c, hardDeadline, k), DrainLoop(c, quiet, hardDeadline, k), k.script);
  }

  // ---------- plain requests ----------

  /** The reply a frame is owed while a plain request waits: questions are not served then. */
  function RpcReplyTo(msg: Json, hint: Hint): Option<Message> {
    var id := Get(msg, "id");
    match Get(msg, "method")
    case Some(Str(rpc)) =>
      if rpc == "session/update" || rpc == "_goose/unstable/session/update" || id.None? then None
      else Some(Reply(id.value,
        if rpc == "session/request_permission" then (if hint.choosesOption then PermissionChoice else PermissionCancelled)
        else MethodNotFound))
    case _ => None
  }

  lemma RpcMethodWrites(c: Client, msg: Json, hint: Hint, fate: Fate)
    ensures ClientAfter(RpcMethod(c, msg, hint, fate)).wire == c.wire + Sent(RpcReplyTo(msg, hint), fate)
  {
    hide OnlyReplied, ServesAgent, RunAfter, OnPermission, ReplyAndGoOn;
    PermissionWire(AsLoop(c), msg, hint.choosesOption, fate);
    if Get(msg, "id").Some? {
      ReplyWire(AsLoop(c), Reply(Get(msg, "id").value, MethodNotFound), fate);
    }
  }

  lemma RpcPassWrites(c: Client, id: nat, i: Input)
    ensures ClientAfter(RpcPass(c, id, i)).wire == c.wire + (if i.arm.Frame? then Sent(RpcReplyTo(i.arm.msg, i.arm.hint), i.fate) else [])
  {
    hide RpcMethod, PromptOutcome, RpcReplyTo;
    if i.arm.Frame? {
      RpcMethodWrites(c, i.arm.msg, i.arm.hint, i.fate);
      if IsResponse(i.arm.msg) {
        RpcResponsesGetNoReply(i.arm.msg, i.arm.hint);
      }
    }
  }

  lemma RpcResponsesGetNoReply(msg: Json, hint: Hint)
    requires IsResponse(msg)
    ensures RpcReplyTo(msg, hint).None?
  {
  }

  function RpcWire(c: Client, id: nat, script: seq<Input>): seq<Message>
    decreases |script|
  {
    if script == [] then []
    else
      var here := if script[0].arm.Frame? then Sent(RpcReplyTo(script[0].arm.msg, script[0].arm.hint), script[0].fate) else [];
      match RpcPass(c, id, script[0])
      case Exit(_, _) => here
      case Continue(n) => here + RpcWire(n.client, id, script[1..])
  }

  lemma {:induction false} RpcRunWrites(c: Client, id: nat, script: seq<Input>)
    ensures RpcRun(c, id, script).0.wire == c.wire + RpcWire(c, id, script)
    decreases |script|
  {
    hide RpcPass, RpcReplyTo;
    if script != [] {
      RpcPassWrites(c, id, script[0]);
      var step := RpcPass(c, id, script[0]);
      if step.Continue? {
        RpcRunWrites(step.loop.client, id, script[1..]);
      }
    }
  }

  /** A plain request writes itself under the next identifier, then the replies owed while it waits. */
  lemma RpcWrites(c: Client, rpc: string, fate: Fate, script: seq<Input>)
    ensures DoRpc(c, rpc, fate, script).0.wire ==
      if fate.Delivered?
      then c.wire + [Request(c.nextId, rpc)] + RpcWire(Written(c.(nextId := c.nextId + 1), Request(c.nextId, rpc), fate), c.nextId, script)
      else c.wire
    ensures fate.Broken? ==> DoRpc(c, rpc, fate, script).1 == Error(WriteFailed)
    ensures fate.Abandon? ==> DoRpc(c, rpc, fate, script).1 == Abandoned
  {
    hide RpcRun, RpcWire;
    RpcRunWrites(Written(c.(nextId := c.nextId + 1), Request(c.nextId, rpc), fate), c.nextId, script);
  }

  lemma RpcPassResult(c: Client, id: nat, i: Input)
    ensures i.arm.Frame? && AnswersId(i.arm.msg, id) ==> RpcPass(c, id, i).Exit? && Conveys(i.arm.msg, RpcPass(c, id, i).outcome)
    ensures RpcPass(c, id, i).Exit? && RpcPass(c, id, i).outcome.Response? ==> i.arm.Frame? && AnswersId(i.arm.msg, id)
  {
    hide OnlyReplied, RunAfter, AnswersId;
  }

  /** And returns a result only from a frame that answers that identifier. */
  lemma {:induction false} RpcReturnsItsResult(c: Client, id: nat, script: seq<Input>) returns (k: nat)
    requires RpcRun(c, id, script).1.Response?
    ensures k < |script| && script[k].arm.Frame? && AnswersId(script[k].arm.msg, id) && Conveys(script[k].arm.msg, RpcRun(c, id, script).1)
    decreases |script|
  {
    hide RpcPass, Conveys, AnswersId;
    RpcPassResult(c, id, script[0]);
    match RpcPass(c, id, script[0])
    case Exit(_, _) => k := 0;
    case Continue(n) =>
      k := RpcReturnsItsResult(n.client, id, script[1..]);
      k := k + 1;
  }

  /** One that is never answered ends in its own time limit. */
  lemma {:induction false} UnansweredRpcTimesOut(c: Client, id: nat, script: seq<Input>)
    requires Mute(script)
    ensures RpcRun(c, id, script) == (c, Error(RequestTimeout))
    decreases |script|
  {
    if script != [] {
      UnansweredRpcTimesOut(c, id, script[1..]);
    }
  }
}
