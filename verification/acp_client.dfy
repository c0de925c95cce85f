/**
 The agent client as an object that updates its fields. Each method is proved to compute the specification of
 `TurnLoop` or `AcpCalls` on the client's state.
 */
module AcpClients {
  import opened Options
  import opened JsonValue
  import opened TurnLoop
  import opened AcpCalls

  class AcpClient {
    var nextId: nat
    var lastPromptId: Option<nat>
    var currentHardDeadline: Option<Time>
    var remainingBudget: Option<nat>
    var pendingPermission: Option<Json>
    var permissionResponded: bool
    var pendingInput: Option<Json>
    var activeRun: Option<string>
    var steering: bool
    var strictSteering: bool
    var turn: Option<string>
    var receiver: bool
    var clock: Time
    var wire: seq<Message>
    var settled: seq<(nat, Settlement)>
    var dispatched: set<nat>

    function State(): Client
      reads this
    {
      Client(nextId, lastPromptId, currentHardDeadline, remainingBudget, pendingPermission, permissionResponded,
             pendingInput, activeRun, steering, strictSteering, turn, receiver, clock, wire, settled, dispatched)
    }

    constructor (steering: bool, strictSteering: bool, clock: Time)
      ensures State() == Fresh(steering, strictSteering, clock)
    {
      nextId, lastPromptId, currentHardDeadline, remainingBudget := 0, None, None, None;
      pendingPermission, permissionResponded, pendingInput, activeRun := None, false, None, None;
      this.steering, this.strictSteering, turn, receiver, this.clock := steering, strictSteering, None, false, clock;
      wire, settled, dispatched := [], [], {};
    }

    method WriteNdjson(m: Message, fate: Fate) returns (delivered: bool)
      modifies this`wire
      ensures delivered == fate.Delivered?
      ensures State() == Written(old(State()), m, fate)
    {
      delivered := fate.Delivered?;
      if delivered {
        wire := wire + [m];
      }
    }

    /** Answer the steer in flight, or let its sender go, if there is one. */
    method SettlePending(pending: Option<Pending>, s: Settlement)
      modifies this`settled
      ensures State() == Settle(old(State()), pending, s)
    {
      if pending.Some? {
        settled := settled + [(pending.value.request.ticket, s)];
      }
    }

    // ---------- the arms of the read loop ----------

    /** The steer arm: `taken` is the request now in flight, `left` says that the caller went away during the write. */
    method TakeSteer(t: Turn, r: SteerRequest, fate: Fate, ghost s: Loop) returns (taken: Option<Pending>, left: bool)
      requires s.client == State() && s.pending.None?
      modifies this
      ensures OnSteer(t, s, r, fate)
        == if left then Exit(State(), Abandoned) else Continue(s.(client := State(), pending := taken))
    {
      taken, left := None, false;
      var selected := SelectTransport(t.session, State(), r);
      if selected.None? {
        settled := settled + [(r.ticket, Answered(Failed(RefusalOf(State(), r))))];
      } else {
        var id := nextId;
        nextId := nextId + 1;
        var delivered := WriteNdjson(Request(id, SteerRpc(selected.value)), fate);
        if delivered {
          dispatched := dispatched + {r.ticket};
          taken := Some(Pending(id, selected.value, if selected.value.Strict? then r.target else None, r));
        } else if fate.Broken? {
          settled := settled + [(r.ticket, Answered(Failed(TransportFailed)))];
        } else {
          settled := settled + [(r.ticket, SenderDropped)];
          left := true;
        }
      }
    }

    /** The response to the steer in flight: settle it, and renew the hard deadline when the turn goes on. */
    method RouteSteerAnswer(t: Turn, p: Pending, msg: Json, work: nat, hardDeadline: Time, ghost s: Loop)
      returns (renewed: Time)
      requires s.client == State() && s.hardDeadline == hardDeadline
      modifies this`clock, this`settled, this`currentHardDeadline
      ensures OnSteerAnswer(t, s, p, msg, work)
        == Continue(s.(client := State(), pending := None, hardDeadline := renewed))
    {
      hide JudgeAnswer;
      var verdict := JudgeAnswer(t, p, msg);
      clock, settled := clock + work, settled + [(p.request.ticket, Answered(verdict.ack))];
      assert State() == Settle(Tick(s.client, work), Some(p), Answered(verdict.ack));
      renewed := hardDeadline;
      if verdict.renews && clock + t.maxDuration > hardDeadline {
        renewed := clock + t.maxDuration;
        currentHardDeadline := Some(renewed);
      }
    }

    /** Answer one permission request; the request is remembered until its reply is written. */
    method HandlePermissionRequest(msg: Json, chooses: bool, fate: Fate, ghost s: Loop) returns (stop: Option<Outcome>)
      requires s.client == State()
      modifies this`pendingPermission, this`permissionResponded, this`wire
      ensures OnPermission(s, msg, chooses, fate) == Stopped(s, State(), stop)
    {
      var id := Get(msg, "id");
      if id.None? {
        return Some(Error(MissingRequestId));
      }
      pendingPermission := id;
      permissionResponded := false;
      var delivered := WriteNdjson(Reply(id.value, if chooses then PermissionChoice else PermissionCancelled), fate);
      if !delivered {
        return Some(FateOutcome(fate));
      }
      permissionResponded := true;
      pendingPermission := None;
      stop := None;
    }

    method ReplyTo(m: Message, fate: Fate, ghost s: Loop) returns (stop: Option<Outcome>)
      requires s.client == State() && m.Reply?
      modifies this`wire
      ensures ReplyAndGoOn(s, m, fate) == Stopped(s, State(), stop)
    {
      var delivered := WriteNdjson(m, fate);
      stop := if delivered then None else Some(FateOutcome(fate));
    }

    /** A question for the user: opened, refused, or refused because one is already open. */
    method HandleElicitation(t: Turn, msg: Json, opens: bool, work: nat, fate: Fate, question: Option<Json>, ghost s: Loop)
      returns (stop: Option<Outcome>, active: bool, posed: Option<Json>)
      requires s.client == State() && s.question == question
      modifies this`clock, this`pendingInput, this`wire
      ensures OnElicitation(t, s, msg, opens, work, fate) == Stopped(Active(t, s, active, clock, posed), State(), stop)
      ensures !active ==> posed == question
    {
      hide ReplyAndGoOn;
      stop, active, posed := None, false, question;
      var id := Get(msg, "id");
      if question.Some? {
        stop := ReplyTo(Reply(At(msg, "id"), ElicitationReply), fate, s);
      } else if id.None? {
        stop := Some(Error(MissingRequestId));
      } else if opens {
        clock := clock + work;
        pendingInput := id;
        active, posed := true, id;
      } else {
        stop := ReplyTo(Reply(id.value, ElicitationReply), fate, s);
      }
    }

    /** A session update may name the run, and a tool call counts as activity. */
    method FollowUpdate(msg: Json, work: nat) returns (active: bool)
      modifies this`activeRun, this`clock
      ensures active == StartsTool(msg)
      ensures State() == Tick(old(State()).(activeRun := RunAfter(old(State()), msg)), if active then work else 0)
    {
      hide RunAfter, StartsTool;
      activeRun := RunAfter(State(), msg);
      active := StartsTool(msg);
      if active {
        clock := clock + work;
      }
    }

    /** Notifications and requests from the agent. */
    method Dispatch(t: Turn, msg: Json, hint: Hint, work: nat, fate: Fate, question: Option<Json>, ghost s: Loop)
      returns (stop: Option<Outcome>, active: bool, posed: Option<Json>)
      requires s.client == State() && s.question == question
      modifies this
      ensures OnMethod(t, s, msg, hint, work, fate)
        == Stopped(Active(t, s, active, clock, posed), State(), stop)
      ensures !active ==> posed == question
    {
      hide OnElicitation, OnPermission, ReplyAndGoOn, RunAfter, StartsTool, ServesAgent, Get, GetStr;
      stop, active, posed := None, false, question;
      var rpc := GetStr(msg, "method");
      if rpc == Some("session/update") {
        active := FollowUpdate(msg, work);
      } else if rpc == Some("session/request_permission") {
        stop := HandlePermissionRequest(msg, hint.choosesOption, fate, s);
      } else if rpc == Some("elicitation/create") {
        stop, active, posed := HandleElicitation(t, msg, hint.opensQuestion, work, fate, question, s);
      } else if rpc.Some? && rpc != Some("_goose/unstable/session/update") && Get(msg, "id").Some? {
        stop := ReplyTo(Reply(Get(msg, "id").value, MethodNotFound), fate, s);
      }
    }

    // ---------- the read loop ----------

    /** Read until the prompt's response arrives, a deadline fires, the stream ends, or the caller goes away. */
    method ReadUntilResponseWithIdleTimeout(t: Turn, deadline: Time, script: seq<Input>) returns (o: Outcome)
      modifies this
      ensures (State(), o) == Finish(Run(t, Enter(t, old(State()), deadline), script))
    {
      hide Select, TimeoutError, NextDeadline;
      var pending: Option<Pending>, question: Option<Json> := None, None;
      var idleDeadline: Time, hardDeadline: Time, lastActivity: Time, toolDeadline: Time := clock + t.idleTimeout, deadline, clock, 0;
      var k := 0;
      while k < |script|
        invariant k <= |script|
        invariant Run(t, Enter(t, old(State()), deadline), script)
          == Run(t, Loop(State(), pending, idleDeadline, hardDeadline, lastActivity, question, toolDeadline), script[k..])
      {
        var i := script[k];
        assert script[k..][0] == i && script[k..][1..] == script[k + 1..];
        clock := clock + i.before;
        var here := Loop(State(), pending, idleDeadline, hardDeadline, lastActivity, question, toolDeadline);
        if Expired(here) {
          SettlePending(pending, Answered(PromptCompletedNeutral));
          return Error(TimeoutError(t, here, clock));
        }
        clock := clock + i.wait;
        var stop;
        stop, pending, idleDeadline, hardDeadline, lastActivity, question, toolDeadline :=
          SelectArm(t, i, pending, idleDeadline, hardDeadline, lastActivity, question, toolDeadline);
        if stop.Some? {
          return stop.value;
        }
        k := k + 1;
      }
      SettlePending(pending, SenderDropped);
      o := Abandoned;
    }

    /** The select of one pass. On a stop the pending steer has been settled. */
    method SelectArm(t: Turn, i: Input, pending: Option<Pending>, idleDeadline: Time, hardDeadline: Time, lastActivity: Time,
                     question: Option<Json>, toolDeadline: Time)
      returns (stop: Option<Outcome>, pending': Option<Pending>, idle': Time, hard': Time, last': Time, question': Option<Json>, tool': Time)
      modifies this
      ensures Select(t, Loop(old(State()), pending, idleDeadline, hardDeadline, lastActivity, question, toolDeadline), i)
        == if stop.Some? then Exit(State(), stop.value)
           else Continue(Loop(State(), pending', idle', hard', last', question', tool'))
    {
      hide OnFrame, OnSteer, OnAnswer, NextDeadline, TimeoutError;
      stop, pending', idle', hard', last', question', tool' :=
        None, pending, idleDeadline, hardDeadline, lastActivity, question, toolDeadline;
      var here := Loop(State(), pending, idleDeadline, hardDeadline, lastActivity, question, toolDeadline);
      match i.arm
      case Eof =>
        SettlePending(pending, Answered(PromptCompletedNeutral));
        stop := Some(Error(AgentExited));
      case Oversized =>
        SettlePending(pending, Answered(PromptCompletedNeutral));
        stop := Some(Error(LineTooLong));
      case Unreadable =>
        SettlePending(pending, Answered(PromptCompletedNeutral));
        stop := Some(Error(ReadFailed));
      case Blank =>
      case Garbage =>
      case Frame(msg, hint) =>
        stop, pending', idle', hard', last', question', tool' :=
          ReadFrame(t, msg, hint, i.work, i.fate, pending, hardDeadline, question, here);
      case Steer(r) =>
        if pending.None? && receiver {
          var left;
          pending', left := TakeSteer(t, r, i.fate, here);
          if left { stop := Some(Abandoned); }
        }
      case Answer =>
        if question.Some? {
          var delivered := AnswerQuestion(t, question.value, i.work, i.fate, here);
          if delivered {
            idle', hard', last', question' := clock + t.idleTimeout, clock + t.maxDuration, clock, None;
          } else {
            SettlePending(pending, SenderDropped);
            stop := Some(FateOutcome(i.fate));
          }
        }
      case Timer =>
        if Expired(here) {
          SettlePending(pending, Answered(PromptCompletedNeutral));
          stop := Some(Error(TimeoutError(t, here, clock)));
        }
    }

    /** Deliver the user's answer and restart both clocks. */
    method AnswerQuestion(t: Turn, question: Json, work: nat, fate: Fate, ghost s: Loop) returns (delivered: bool)
      requires s.client == State() && s.question == Some(question)
      modifies this`pendingInput, this`wire, this`clock, this`currentHardDeadline
      ensures delivered == fate.Delivered?
      ensures OnAnswer(t, s, work, fate) ==
        if delivered
        then Continue(s.(client := State(), question := None, idleDeadline := clock + t.idleTimeout,
                         hardDeadline := clock + t.maxDuration, lastActivity := clock))
        else Exit(Settle(State(), s.pending, SenderDropped), FateOutcome(fate))
    {
      pendingInput := None;
      delivered := WriteNdjson(Reply(question, ElicitationReply), fate);
      if delivered {
        clock := clock + work;
        currentHardDeadline := Some(clock + t.maxDuration);
      }
    }

    /** One parsed line. */
    method ReadFrame(t: Turn, msg: Json, hint: Hint, work: nat, fate: Fate, pending: Option<Pending>, hardDeadline: Time,
                     question: Option<Json>, ghost s: Loop)
      returns (stop: Option<Outcome>, pending': Option<Pending>, idle': Time, hard': Time, last': Time, question': Option<Json>, tool': Time)
      requires s.client == State() && s.pending == pending && s.hardDeadline == hardDeadline && s.question == question
      modifies this
      ensures OnFrame(t, s, msg, hint, work, fate)
        == if stop.Some? then Exit(State(), stop.value)
           else Continue(Loop(State(), pending', idle', hard', last', question', tool'))
    {
      hide OnSteerAnswer, OnMethod, ServesAgent, PromptOutcome;
      stop, pending', hard', question', tool' := None, pending, hardDeadline, question, hint.toolDeadline;
      idle', last' := clock + t.idleTimeout, clock;
      ghost var live := s.(idleDeadline := idle', lastActivity := last', toolDeadline := tool');
      if pending.Some? && AnswersId(msg, pending.value.id) {
        hard' := RouteSteerAnswer(t, pending.value, msg, work, hardDeadline, live);
        pending' := None;
      } else if AnswersId(msg, t.promptId) {
        SettlePending(pending, Answered(PromptCompletedNeutral));
        stop := Some(PromptOutcome(msg));
      } else {
        var active;
        stop, active, question' := Dispatch(t, msg, hint, work, fate, question, live);
        if active {
          idle', last' := clock + t.idleTimeout, clock;
        }
        if stop.Some? {
          SettlePending(pending, SenderDropped);
        }
      }
    }

    // ---------- prompts ----------

    method SessionPrompt(p: PromptCall) returns (o: Outcome)
      modifies this
      ensures (State(), o) == DoPrompt(old(State()), p)
    {
      hide Run, Finish, ClosePrompt, Enter;
      var id, hardDeadline := nextId, clock + p.maxDuration;
      Open(hardDeadline);
      assert State() == Opened(old(State()), p);
      var delivered := WriteNdjson(Request(id, "session/prompt"), p.fate);
      if !delivered {
        if p.fate.Broken? {
          lastPromptId, currentHardDeadline := None, None;
        }
        return FateOutcome(p.fate);
      }
      clock := clock + p.delay;
      o := ReadUntilResponseWithIdleTimeout(
        Turn(p.session, id, p.idleTimeout, p.toolIdleTimeout, p.maxDuration), hardDeadline, p.script);
      Close(o);
    }

    /** Record the prompt's identifier and deadline before it is written. */
    method Open(hardDeadline: Time)
      modifies this`remainingBudget, this`currentHardDeadline, this`lastPromptId, this`nextId
      ensures State() == old(State()).(remainingBudget := None, hardDeadline := Some(hardDeadline),
                                       lastPromptId := Some(old(nextId)), nextId := old(nextId) + 1)
    {
      remainingBudget := None;
      currentHardDeadline := Some(hardDeadline);
      lastPromptId := Some(nextId);
      nextId := nextId + 1;
    }

    /** Close the prompt after its loop, unless a cancel is to follow. */
    method Close(o: Outcome)
      modifies this`remainingBudget, this`lastPromptId, this`currentHardDeadline, this`pendingInput
      ensures State() == ClosePrompt(old(State()), o)
    {
      if o.Response? {
        if currentHardDeadline.Some? {
          var d := currentHardDeadline.value;
          remainingBudget := Some(if clock <= d then d - clock else 0);
        } else {
          remainingBudget := None;
        }
        lastPromptId, currentHardDeadline := None, None;
      } else if !o.Abandoned? && !IsTimeout(o) {
        pendingInput, lastPromptId, currentHardDeadline := None, None, None;
      }
    }

    // ---------- cancels ----------

    method CancelWithCleanup(k: CancelCall) returns (o: Outcome)
      modifies this
      ensures (State(), o) == DoCancel(old(State()), k)
    {
      hide CancelUntil;
      var stored := currentHardDeadline;
      currentHardDeadline := None;
      var floor := clock + CLEANUP_GRACE;
      var hardDeadline := if stored.Some? && stored.value > floor then stored.value else floor;
      o := CancelWithCleanupUntil(hardDeadline, k);
    }

    method CancelWithCleanupGrace(grace: nat, k: CancelCall) returns (o: Outcome)
      modifies this
      ensures (State(), o) == DoCancelGrace(old(State()), grace, k)
    {
      hide CancelUntil;
      currentHardDeadline := None;
      o := CancelWithCleanupUntil(clock + grace, k);
      if o.Error? && o.error.HardTimeout? {
        o := Error(CancelDrainTimeout(grace));
      }
    }

    method CancelWithCleanupUntil(hardDeadline: Time, k: CancelCall) returns (o: Outcome)
      modifies this
      ensures (State(), o) == CancelUntil(old(State()), hardDeadline, k)
    {
      hide Run, Finish, SettlePermission, SettleInput, DrainTurn, DrainLoop;
      if lastPromptId.None? {
        return Error(NoPromptInFlight);
      }
      var promptId := lastPromptId.value;
      lastPromptId := None;
      receiver := false;
      var ok := AnswerPendingPermission(k.permissionFate);
      if !ok {
        return FateOutcome(k.permissionFate);
      }
      ok := AnswerPendingInput(k.inputFate);
      if !ok {
        return FateOutcome(k.inputFate);
      }
      o := NotifyAndDrain(promptId, hardDeadline, k, old(State()));
    }

    /** Answer a permission request that is still owed its reply, and forget it. */
    method AnswerPendingPermission(fate: Fate) returns (ok: bool)
      modifies this`pendingPermission, this`permissionResponded, this`wire
      ensures ok == (OwesPermission(old(State())) ==> fate.Delivered?)
      ensures State() == if ok then SettlePermission(old(State())) else old(State())
    {
      ok := true;
      if pendingPermission.Some? {
        if !permissionResponded {
          ok := WriteNdjson(Reply(pendingPermission.value, PermissionCancelled), fate);
        }
        if ok {
          pendingPermission, permissionResponded := None, false;
        }
      }
    }

    method AnswerPendingInput(fate: Fate) returns (ok: bool)
      modifies this`pendingInput, this`wire
      ensures ok == (old(pendingInput).Some? ==> fate.Delivered?)
      ensures State() == if ok then SettleInput(old(State())) else old(State())
    {
      ok := true;
      if pendingInput.Some? {
        ok := WriteNdjson(Reply(pendingInput.value, ElicitationReply), fate);
        if ok {
          pendingInput := None;
        }
      }
    }

    method NotifyAndDrain(promptId: nat, hardDeadline: Time, k: CancelCall, ghost c: Client) returns (o: Outcome)
      requires c.lastPromptId == Some(promptId) && clock == c.now
      modifies this
      ensures (State(), o) ==
        if k.noticeFate.Delivered?
        then Finish(Run(DrainTurn(c, hardDeadline, k), DrainLoop(c, old(State()), hardDeadline, k), k.script))
        else (old(State()), FateOutcome(k.noticeFate))
    {
      hide Run, Finish;
      var delivered := WriteNdjson(Notification("session/cancel", k.session), k.noticeFate);
      if !delivered {
        return FateOutcome(k.noticeFate);
      }
      clock := clock + k.delay;
      var remaining := if clock <= hardDeadline then hardDeadline - clock else 0;
      o := ReadUntilResponseWithIdleTimeout(
        Turn(k.session, promptId, CLEANUP_GRACE, k.toolIdleTimeout, remaining), hardDeadline, k.script);
    }

    // ---------- plain requests ----------

    method SendRequest(rpc: string, fate: Fate, script: seq<Input>) returns (o: Outcome)
      modifies this
      ensures (State(), o) == DoRpc(old(State()), rpc, fate, script)
    {
      hide RpcRun;
      var id := nextId;
      nextId := nextId + 1;
      var delivered := WriteNdjson(Request(id, rpc), fate);
      if !delivered {
        return FateOutcome(fate);
      }
      o := ReadUntilResponse(id, script);
    }

    method ReadUntilResponse(expectedId: nat, script: seq<Input>) returns (o: Outcome)
      modifies this
      ensures (State(), o) == RpcRun(old(State()), expectedId, script)
    {
      hide RpcMethod;
      var k := 0;
      while k < |script|
        invariant k <= |script|
        invariant RpcRun(old(State()), expectedId, script) == RpcRun(State(), expectedId, script[k..])
      {
        var i := script[k];
        assert script[k..][0] == i && script[k..][1..] == script[k + 1..];
        match i.arm {
          case Eof => return Error(AgentExited);
          case Oversized => return Error(LineTooLong);
          case Unreadable => return Error(ReadFailed);
          case Frame(msg, hint) =>
            if AnswersId(msg, expectedId) {
              return PromptOutcome(msg);
            }
            var stop := ServeDuringRequest(msg, hint, i.fate);
            if stop.Some? {
              return stop.value;
            }
          case _ =>
        }
        k := k + 1;
      }
      o := Error(RequestTimeout);
    }

    method ServeDuringRequest(msg: Json, hint: Hint, fate: Fate) returns (stop: Option<Outcome>)
      modifies this
      ensures RpcMethod(old(State()), msg, hint, fate) == Stopped(AsLoop(old(State())), State(), stop)
    {
      stop := None;
      var rpc := GetStr(msg, "method");
      if rpc == Some("session/update") {
        activeRun := RunAfter(State(), msg);
      } else if rpc == Some("session/request_permission") {
        stop := HandlePermissionRequest(msg, hint.choosesOption, fate, AsLoop(State()));
      } else if rpc.Some? && rpc != Some("_goose/unstable/session/update") && Get(msg, "id").Some? {
        stop := ReplyTo(Reply(Get(msg, "id").value, MethodNotFound), fate, AsLoop(State()));
      }
    }
  }

  /** A loop whose silence clock restarts with agent activity, with the question then open. */
  function Active(t: Turn, s: Loop, active: bool, now: Time, question: Option<Json>): Loop {
    if active then s.(question := question, idleDeadline := now + t.idleTimeout, lastActivity := now) else s
  }

  /** A loop that goes on with a client, or stops and lets a steer in flight go. */
  function Stopped(s: Loop, c: Client, stop: Option<Outcome>): Step {
    match stop
    case None => Continue(s.(client := c))
    case Some(o) => Exit(Settle(c, s.pending, SenderDropped), o)
  }
}
