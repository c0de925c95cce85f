/** What a turn puts on the wire, what ends it, and what its answers mean. */
module TurnWire {
  import opened Options
  import opened JsonValue
  import opened TurnLoop
  import opened TurnSettlement
  import opened TurnDeadlines
  import opened TurnRouting

  // ---------- the reply a frame calls for ----------

  /** The reply that a frame with a method is owed: none for updates, none for a question that is put to the user, and
      otherwise one, under the identifier of the request. */
  function ReplyTo(s: Loop, msg: Json, hint: Hint): Option<Message> {
    var id := Get(msg, "id");
    match Get(msg, "method")
    case Some(Str(rpc)) =>
      if rpc == "session/update" || rpc == "_goose/unstable/session/update" then None
      else if rpc == "elicitation/create" && s.question.Some? then Some(Reply(At(msg, "id"), ElicitationReply))
      else if id.None? || (rpc == "elicitation/create" && hint.opensQuestion) then None
      else Some(Reply(id.value,
        if rpc == "session/request_permission" then (if hint.choosesOption then PermissionChoice else PermissionCancelled)
        else if rpc == "elicitation/create" then ElicitationReply
        else MethodNotFound))
    case _ => None
  }

  function Sent(m: Option<Message>, fate: Fate): seq<Message> {
    if m.Some? && fate.Delivered? then [m.value] else []
  }

  lemma PermissionWire(s: Loop, msg: Json, chooses: bool, fate: Fate)
    ensures ClientAfter(OnPermission(s, msg, chooses, fate)).wire == s.client.wire +
      Sent(if Get(msg, "id").Some? then Some(Reply(Get(msg, "id").value, if chooses then PermissionChoice else PermissionCancelled)) else None, fate)
  {
    hide OnlyReplied, Get;
  }

  lemma ReplyWire(s: Loop, m: Message, fate: Fate)
    requires m.Reply?
    ensures ClientAfter(ReplyAndGoOn(s, m, fate)).wire == s.client.wire + Sent(Some(m), fate)
  {
    hide OnlyReplied;
  }

  lemma ElicitationWire(t: Turn, s: Loop, msg: Json, opens: bool, work: nat, fate: Fate)
    ensures ClientAfter(OnElicitation(t, s, msg, opens, work, fate)).wire == s.client.wire +
      Sent(if s.question.Some? then Some(Reply(At(msg, "id"), ElicitationReply))
           else if Get(msg, "id").None? || opens then None
           else Some(Reply(Get(msg, "id").value, ElicitationReply)), fate)
  {
    hide OnlyReplied, Get, At, ReplyAndGoOn;
    ReplyWire(s, Reply(At(msg, "id"), ElicitationReply), fate);
    if Get(msg, "id").Some? {
      ReplyWire(s, Reply(Get(msg, "id").value, ElicitationReply), fate);
    }
  }

  lemma MethodIs(msg: Json)
    ensures GetStr(msg, "method") == match Get(msg, "method") { case Some(Str(rpc)) => Some(rpc) case _ => None }
  {
  }

  lemma MethodWire(t: Turn, s: Loop, msg: Json, hint: Hint, work: nat, fate: Fate)
    ensures ClientAfter(OnMethod(t, s, msg, hint, work, fate)).wire == s.client.wire + Sent(ReplyTo(s, msg, hint), fate)
  {
    hide OnlyReplied, RunAfter, StartsTool, OnPermission, OnElicitation, ReplyAndGoOn, ServesAgent, At, GetStr, Get;
    MethodIs(msg);
    var rpc := GetStr(msg, "method");
    if rpc == Some("session/request_permission") {
      PermissionWire(s, msg, hint.choosesOption, fate);
    } else if rpc == Some("elicitation/create") {
      ElicitationWire(t, s, msg, hint.opensQuestion, work, fate);
    } else if rpc.Some? && Get(msg, "id").Some? {
      ReplyWire(s, Reply(Get(msg, "id").value, MethodNotFound), fate);
    }
  }

  // ---------- one pass ----------

  /** The steer method a request goes out under: goose's while a run is known, the extension's otherwise and when strict. */
  function SteerMethod(t: Turn, c: Client, r: SteerRequest): Option<string> {
    match r.target
    case Some(target) =>
      if c.strictSteering && target.session == t.session && c.turn == Some(target.turn) then Some("_session/steering") else None
    case None =>
      if c.activeRun.Some? then Some("_goose/unstable/session/steer")
      else if c.steering then Some("_session/steering") else None
  }

  /** Everything a pass writes. */
  function PassWire(t: Turn, s: Loop, i: Input): seq<Message> {
    if !ReachesSelect(s, i) || !i.fate.Delivered? then []
    else match i.arm
      case Frame(msg, hint) => Sent(ReplyTo(s, msg, hint), i.fate)
      case Steer(r) =>
        if TakesSteer(s) && SteerMethod(t, s.client, r).Some?
        then [Request(s.client.nextId, SteerMethod(t, s.client, r).value)] else []
      case Answer => if s.question.Some? then [Reply(s.question.value, ElicitationReply)] else []
      case _ => []
  }

  lemma FrameWire(t: Turn, s: Loop, msg: Json, hint: Hint, work: nat, fate: Fate)
    ensures ClientAfter(OnFrame(t, s, msg, hint, work, fate)).wire == s.client.wire + Sent(ReplyTo(s, msg, hint), fate)
  {
    hide OnMethod, JudgeAnswer, PromptOutcome, OnlyReplied, ReplyTo;
    var live := Heard(t, s, hint);
    MethodWire(t, live, msg, hint, work, fate);
    ReplyIgnoresClock(s, live, msg, hint);
    if IsResponse(msg) {
      ResponsesGetNoReply(s, msg, hint);
    }
  }

  lemma ReplyIgnoresClock(s: Loop, n: Loop, msg: Json, hint: Hint)
    requires n.question == s.question
    ensures ReplyTo(n, msg, hint) == ReplyTo(s, msg, hint)
  {
  }

  lemma ResponsesGetNoReply(s: Loop, msg: Json, hint: Hint)
    requires IsResponse(msg)
    ensures ReplyTo(s, msg, hint).None?
  {
  }

  lemma SteerWire(t: Turn, s: Loop, r: SteerRequest, fate: Fate)
    ensures ClientAfter(OnSteer(t, s, r, fate)).wire == s.client.wire +
      (if SteerMethod(t, s.client, r).Some? && fate.Delivered? then [Request(s.client.nextId, SteerMethod(t, s.client, r).value)] else [])
  {
  }

  /** A pass writes exactly that, and a request or notification of another kind never. */
  lemma PassWrites(t: Turn, s: Loop, i: Input)
    ensures ClientAfter(Pass(t, s, i)).wire == s.client.wire + PassWire(t, s, i)
  {
    hide OnFrame, OnSteer, Expired, TimeoutError, ReplyTo, SteerMethod;
    var woken := s.(client := Tick(Tick(s.client, i.before), i.wait));
    match i.arm
    case Frame(msg, hint) =>
      FrameWire(t, woken, msg, hint, i.work, i.fate);
      ReplyIgnoresClock(s, woken, msg, hint);
    case Steer(r) =>
      SteerWire(t, woken, r, i.fate);
      SteerIgnoresClock(t, s.client, woken.client, r);
    case _ =>
  }

  lemma SteerIgnoresClock(t: Turn, a: Client, b: Client, r: SteerRequest)
    requires b == a.(now := b.now)
    ensures SteerMethod(t, a, r) == SteerMethod(t, b, r)
  {
  }

  /** Everything a run writes, pass by pass. */
  function RunWire(t: Turn, s: Loop, script: seq<Input>): seq<Message>
    decreases |script|
  {
    if script == [] then []
    else
      match Pass(t, s, script[0])
      case Exit(_, _) => PassWire(t, s, script[0])
      case Continue(n) => PassWire(t, s, script[0]) + RunWire(t, n, script[1..])
  }

  /** Over every script the wire is the old wire and then, in order, what each pass owed it. */
  lemma {:induction false} RunWrites(t: Turn, s: Loop, script: seq<Input>)
    ensures Finish(Run(t, s, script)).0.wire == s.client.wire + RunWire(t, s, script)
    decreases |script|
  {
    hide Pass, PassWire;
    if script != [] {
      PassWrites(t, s, script[0]);
      var step := Pass(t, s, script[0]);
      if step.Continue? {
        RunWrites(t, step.loop, script[1..]);
      }
    }
  }

  lemma ReceiverStays(t: Turn, s: Loop, i: Input)
    ensures ClientAfter(Pass(t, s, i)).receiver == s.client.receiver
  {
    hide OnFrame, SelectTransport, Expired, TimeoutError;
    if i.arm.Frame? {
      FrameKeepsReceiver(t, s.(client := Tick(Tick(s.client, i.before), i.wait)), i.arm.msg, i.arm.hint, i.work, i.fate);
    }
  }

  lemma FrameKeepsReceiver(t: Turn, s: Loop, msg: Json, hint: Hint, work: nat, fate: Fate)
    ensures ClientAfter(OnFrame(t, s, msg, hint, work, fate)).receiver == s.client.receiver
  {
    hide OnMethod, OnSteerAnswer, AnswersId, PromptOutcome, OnlyReplied, ServesAgent;
    var live := Heard(t, s, hint);
    ServingKeepsReceiver(live, OnMethod(t, live, msg, hint, work, fate));
    if s.pending.Some? {
      SteerAnswerKeepsReceiver(t, live, s.pending.value, msg, work);
    }
  }

  lemma ServingKeepsReceiver(s: Loop, step: Step)
    requires ServesAgent(s, step)
    ensures ClientAfter(step).receiver == s.client.receiver
  {
  }

  lemma SteerAnswerKeepsReceiver(t: Turn, s: Loop, p: Pending, msg: Json, work: nat)
    ensures ClientAfter(OnSteerAnswer(t, s, p, msg, work)).receiver == s.client.receiver
  {
    hide JudgeAnswer;
  }

  /** A loop without a steer receiver writes replies and nothing else. */
  lemma {:induction false} DeafRunOnlyReplies(t: Turn, s: Loop, script: seq<Input>)
    requires !s.client.receiver
    ensures forall i :: 0 <= i < |RunWire(t, s, script)| ==> RunWire(t, s, script)[i].Reply?
    decreases |script|
  {
    hide Pass;
    if script != [] {
      ReceiverStays(t, s, script[0]);
      var step := Pass(t, s, script[0]);
      if step.Continue? {
        DeafRunOnlyReplies(t, step.loop, script[1..]);
      }
    }
  }

  // ---------- what ends a turn ----------

  /** The pass reads a frame that answers the prompt and not the steer in flight. */
  predicate ReadsResult(t: Turn, s: Loop, i: Input) {
    && ReachesSelect(s, i) && i.arm.Frame? && AnswersId(i.arm.msg, t.promptId)
    && (s.pending.Some? ==> !AnswersId(i.arm.msg, s.pending.value.id))
  }

  lemma PassResult(t: Turn, s: Loop, i: Input)
    ensures ReadsResult(t, s, i) ==> Pass(t, s, i).Exit? && Conveys(i.arm.msg, Pass(t, s, i).outcome)
    ensures Pass(t, s, i).Exit? && (Pass(t, s, i).outcome.Response? || (Pass(t, s, i).outcome.Error? && Pass(t, s, i).outcome.error.AgentFault?)) ==>
      ReadsResult(t, s, i)
  {
    hide OnMethod, JudgeAnswer, AnswersId, OnlyReplied, Expired, SelectTransport;
  }

  /** A run returns a result, or the agent's error, only from a frame that answers its prompt, and returns what it says. */
  lemma {:induction false} ResultComesFromItsFrame(t: Turn, s: Loop, script: seq<Input>) returns (k: nat, n: Loop)
    requires
      var o := Finish(Run(t, s, script)).1;
      o.Response? || (o.Error? && o.error.AgentFault?)
    ensures k < |script| && Run(t, s, script[..k]) == Continue(n) && ReadsResult(t, n, script[k])
    ensures Conveys(script[k].arm.msg, Finish(Run(t, s, script)).1)
    decreases |script|
  {
    hide Pass, ReadsResult, Conveys;
    PassResult(t, s, script[0]);
    match Pass(t, s, script[0])
    case Exit(_, _) => k, n := 0, s;
    case Continue(next) =>
      k, n := ResultComesFromItsFrame(t, next, script[1..]);
      assert script[..k + 1][1..] == script[1..][..k];
      k := k + 1;
  }

  /** And the first such frame ends it. */
  lemma ResultEndsTheRun(t: Turn, s: Loop, script: seq<Input>, k: nat, n: Loop)
    requires k < |script| && Run(t, s, script[..k]) == Continue(n) && ReadsResult(t, n, script[k])
    ensures Run(t, s, script).Exit? && Conveys(script[k].arm.msg, Run(t, s, script).outcome)
  {
    hide Pass, ReadsResult, Conveys;
    RunSplit(t, s, script, k);
    assert script[k..][0] == script[k];
    PassResult(t, n, script[k]);
  }

  // ---------- what the answer to a steer means ----------

  /** A steer succeeded exactly if the answer is no error and: goose answered at all; the extension says `injected` or
      `startedNewTurn`; or a strict answer echoes both identities with `appended`. */
  lemma SuccessExactlyWhen(t: Turn, p: Pending, msg: Json)
    ensures JudgeAnswer(t, p, msg).ack.Success? <==>
      && Get(msg, "error").None?
      && match p.transport
         case Goose => true
         case Extension => Get(At(msg, "result"), "outcome") in {Some(Str("injected")), Some(Str("startedNewTurn"))}
         case Strict =>
           && p.target.Some? && Get(At(msg, "result"), "outcome") == Some(Str("appended"))
           && Get(At(msg, "result"), "requestId") == Some(Str(p.target.value.request))
           && Get(At(msg, "result"), "turnId") == Some(Str(p.target.value.turn))
    ensures JudgeAnswer(t, p, msg).ack.Success? ==> JudgeAnswer(t, p, msg).ack == Success(t.session)
  {
  }

  /** An error answer is passed on with its code, or as a rejection when strict. */
  lemma ErrorAnswerMeans(t: Turn, p: Pending, msg: Json)
    requires Get(msg, "error").Some?
    ensures JudgeAnswer(t, p, msg) == Verdict(
      if p.transport.Strict? then Failed(StrictOutcome("rejected"))
      else Failed(AgentRefused(match Get(Get(msg, "error").value, "code") { case Some(Num(n)) => n case _ => -1 })), false)
  {
  }

  // ---------- the run in progress ----------

  /** A session update that names the run in progress. */
  function RunUpdate(run: Json): Json {
    var info := Obj(map["sessionUpdate" := Str("session_info_update"), "_meta" := Obj(map["goose" := Obj(map["activeRunId" := run])])]);
    Obj(map["method" := Str("session/update"), "params" := Obj(map["update" := info])])
  }

  /** A run named by an update becomes the one in progress, null clears it, and anything else leaves it. */
  lemma UpdateNamesTheRun(t: Turn, s: Loop, i: Input, run: Json)
    requires ReachesSelect(s, i) && i.arm.Frame? && i.arm.msg == RunUpdate(run)
    ensures Pass(t, s, i).Continue?
    ensures Pass(t, s, i).loop.client.activeRun ==
      if run.Str? then Some(run.s) else if run.Null? then None else s.client.activeRun
  {
    hide Expired, TimeoutError, OnlyReplied;
    RunUpdateMeans(s.client, run);
    RunUpdateMeans(Tick(Tick(s.client, i.before), i.wait), run);
  }

  lemma RunUpdateMeans(c: Client, run: Json)
    ensures
      var msg := RunUpdate(run);
      && GetStr(msg, "method") == Some("session/update") && !IsResponse(msg) && !StartsTool(msg)
      && RunAfter(c, msg) == (if run.Str? then Some(run.s) else if run.Null? then None else c.activeRun)
  {
    var msg := RunUpdate(run);
    var update := At(At(msg, "params"), "update");
    assert Get(update, "sessionUpdate") == Some(Str("session_info_update"));
    assert Get(At(At(update, "_meta"), "goose"), "activeRunId") == Some(run);
  }

  lemma MethodKeepsRun(t: Turn, s: Loop, msg: Json, hint: Hint, work: nat, fate: Fate)
    requires Get(msg, "method") != Some(Str("session/update"))
    ensures ClientAfter(OnMethod(t, s, msg, hint, work, fate)).activeRun == s.client.activeRun
  {
    hide OnlyReplied, RunAfter, StartsTool, OnPermission, OnElicitation, ReplyAndGoOn, ServesAgent;
    PermissionKeepsRun(s, msg, hint.choosesOption, fate);
    ElicitationKeepsRun(t, s, msg, hint.opensQuestion, work, fate);
    if Get(msg, "id").Some? {
      ReplyKeepsRun(s, Reply(Get(msg, "id").value, MethodNotFound), fate);
    }
  }

  lemma PermissionKeepsRun(s: Loop, msg: Json, chooses: bool, fate: Fate)
    ensures ClientAfter(OnPermission(s, msg, chooses, fate)).activeRun == s.client.activeRun
  {
    hide OnlyReplied, Get;
  }

  lemma ReplyKeepsRun(s: Loop, m: Message, fate: Fate)
    requires m.Reply?
    ensures ClientAfter(ReplyAndGoOn(s, m, fate)).activeRun == s.client.activeRun
  {
    hide OnlyReplied;
  }

  lemma ElicitationKeepsRun(t: Turn, s: Loop, msg: Json, opens: bool, work: nat, fate: Fate)
    ensures ClientAfter(OnElicitation(t, s, msg, opens, work, fate)).activeRun == s.client.activeRun
  {
    hide OnlyReplied, Get, At, ReplyAndGoOn;
    ReplyKeepsRun(s, Reply(At(msg, "id"), ElicitationReply), fate);
    if Get(msg, "id").Some? {
      ReplyKeepsRun(s, Reply(Get(msg, "id").value, ElicitationReply), fate);
    }
  }

  lemma FrameKeepsRun(t: Turn, s: Loop, msg: Json, hint: Hint, work: nat, fate: Fate)
    requires Get(msg, "method") != Some(Str("session/update"))
    ensures ClientAfter(OnFrame(t, s, msg, hint, work, fate)).activeRun == s.client.activeRun
  {
    hide OnMethod, JudgeAnswer, AnswersId, PromptOutcome, OnlyReplied;
    MethodKeepsRun(t, Heard(t, s, hint), msg, hint, work, fate);
  }

  /** Nothing but a session update touches it. */
  lemma OnlyUpdatesNameTheRun(t: Turn, s: Loop, i: Input)
    requires !(i.arm.Frame? && Get(i.arm.msg, "method") == Some(Str("session/update")))
    ensures ClientAfter(Pass(t, s, i)).activeRun == s.client.activeRun
  {
    hide OnFrame, Expired, TimeoutError, SelectTransport;
    if i.arm.Frame? {
      FrameKeepsRun(t, s.(client := Tick(Tick(s.client, i.before), i.wait)), i.arm.msg, i.arm.hint, i.work, i.fate);
    }
  }

  // ---------- how a steer request fares when it is taken ----------

  /** A request that is taken is, at once: refused for what is missing, sent and left in flight, told that its write failed,
      or dropped with the caller. */
  lemma TakenFares(t: Turn, s: Loop, i: Input)
    requires ReachesSelect(s, i) && i.arm.Steer? && s.pending.None? && s.client.receiver
    ensures Takes(s, i)
    ensures
      var r := i.arm.request;
      var log := ClientAfter(Pass(t, s, i)).settled;
      if SteerMethod(t, s.client, r).None? then
        log == s.client.settled + [(r.ticket, Answered(Failed(
          if r.target.None? then ExpectedRunIdMissing
          else if s.client.strictSteering then StrictTargetMismatch else StrictUnsupported)))]
      else log == s.client.settled + (match i.fate
        case Delivered => []
        case Broken => [(r.ticket, Answered(Failed(TransportFailed)))]
        case Abandon => [(r.ticket, SenderDropped)])
  {
    hide Expired, TimeoutError;
  }

  // ---------- questions ----------

  /** The question a loop has open is the one its client would have to answer on a cancel. */
  predicate QuestionIsHeld(s: Loop) {
    s.question.Some? ==> s.client.pendingInput == s.question
  }

  lemma MethodHoldsQuestion(t: Turn, s: Loop, msg: Json, hint: Hint, work: nat, fate: Fate)
    requires QuestionIsHeld(s)
    ensures var step := OnMethod(t, s, msg, hint, work, fate); step.Continue? ==> QuestionIsHeld(step.loop)
    ensures
      var step := OnMethod(t, s, msg, hint, work, fate);
      Get(msg, "method") == Some(Str("elicitation/create")) && Get(msg, "id").Some? && hint.opensQuestion && s.question.None? ==>
        step.Continue? && step.loop.question == Get(msg, "id") && step.loop.client.pendingInput == Get(msg, "id")
  {
    hide OnlyReplied, RunAfter, StartsTool, ServesAgent;
  }

  lemma PassHoldsQuestion(t: Turn, s: Loop, i: Input)
    requires QuestionIsHeld(s)
    ensures Pass(t, s, i).Continue? ==> QuestionIsHeld(Pass(t, s, i).loop)
  {
    hide OnMethod, JudgeAnswer, SelectTransport, Expired, TimeoutError, OnlyReplied, ServesAgent, AnswersId;
    if i.arm.Frame? {
      var woken := s.(client := Tick(Tick(s.client, i.before), i.wait));
      MethodHoldsQuestion(t, Heard(t, woken, i.arm.hint), i.arm.msg, i.arm.hint, i.work, i.fate);
    }
  }

  /** At every point of every turn. */
  lemma {:induction false} QuestionIsAlwaysHeld(t: Turn, s: Loop, script: seq<Input>)
    requires QuestionIsHeld(s)
    ensures Run(t, s, script).Continue? ==> QuestionIsHeld(Run(t, s, script).loop)
    decreases |script|
  {
    hide Pass, QuestionIsHeld;
    if script != [] {
      PassHoldsQuestion(t, s, script[0]);
      var step := Pass(t, s, script[0]);
      if step.Continue? {
        QuestionIsAlwaysHeld(t, step.loop, script[1..]);
      }
    }
  }

  /** A question put to the user is open from then on, and remembered. */
  lemma QuestionOpens(t: Turn, s: Loop, i: Input)
    requires ReachesSelect(s, i) && i.arm.Frame? && s.question.None? && i.arm.hint.opensQuestion
    requires Get(i.arm.msg, "method") == Some(Str("elicitation/create")) && Get(i.arm.msg, "id").Some?
    ensures Pass(t, s, i).Continue? && Pass(t, s, i).loop.question == Get(i.arm.msg, "id")
    ensures Pass(t, s, i).loop.client.pendingInput == Get(i.arm.msg, "id")
  {
    hide OnMethod, OnSteerAnswer, Expired, TimeoutError, OnlyReplied, ServesAgent;
    var woken := s.(client := Tick(Tick(s.client, i.before), i.wait));
    MethodHoldsQuestion(t, Heard(t, woken, i.arm.hint), i.arm.msg, i.arm.hint, i.work, i.fate);
  }

  /** An answer is given once: whether or not its write gets through, no later cancel answers that question again. */
  lemma AnswerIsGivenOnce(t: Turn, s: Loop, i: Input)
    requires ReachesSelect(s, i) && i.arm.Answer? && s.question.Some?
    ensures ClientAfter(Pass(t, s, i)).pendingInput == None
    ensures Pass(t, s, i).Continue? <==> i.fate.Delivered?
    ensures i.fate.Delivered? ==> Pass(t, s, i).loop.question == None
  {
    hide Expired, TimeoutError;
  }
}
