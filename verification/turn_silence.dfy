/** The silence clock of a turn: what restarts it, what does not, and when it ends the turn. */
module TurnSilence {
  import opened Options
  import opened JsonValue
  import opened TurnLoop
  import opened TurnSettlement
  import opened TurnDeadlines

  /** A sign of life: a frame is read, or the user's answer is delivered to the agent. */
  predicate Alive(s: Loop, i: Input) {
    ReachesSelect(s, i) && (i.arm.Frame? || (i.arm.Answer? && s.question.Some? && i.fate.Delivered?))
  }

  /** The clock when the select of a pass picks its arm. */
  function Reading(s: Loop, i: Input): Time {
    s.client.now + i.before + i.wait
  }

  /** The silence deadline is always a full idle timeout after the last sign of life. */
  predicate Paced(t: Turn, s: Loop) {
    s.idleDeadline == s.lastActivity + t.idleTimeout && s.lastActivity <= s.client.now
  }

  /** How a step leaves the silence clock: restarted between two readings, or where it was. */
  ghost predicate SilenceMoves(t: Turn, s: Loop, from: Time, alive: bool, step: Step) {
    step.Continue? ==>
      var n := step.loop;
      && from <= n.client.now
      && (alive ==> Paced(t, n) && from <= n.lastActivity)
      && (!alive ==> n.lastActivity == s.lastActivity && n.idleDeadline == s.idleDeadline && n.toolDeadline == s.toolDeadline
                     && n.question == s.question)
  }

  /** Serving an agent request restarts the silence clock or leaves it, and never sets it wrong. */
  ghost predicate KeepsPace(t: Turn, s: Loop, step: Step) {
    step.Continue? ==>
      && Paced(t, step.loop) && s.lastActivity <= step.loop.lastActivity && step.loop.toolDeadline == s.toolDeadline
      && s.client.now <= step.loop.client.now
  }

  lemma ReplySilence(t: Turn, s: Loop, m: Message, fate: Fate)
    requires Paced(t, s) && m.Reply?
    ensures KeepsPace(t, s, ReplyAndGoOn(s, m, fate))
  {
    hide OnlyReplied;
  }

  lemma PermissionSilence(t: Turn, s: Loop, msg: Json, chooses: bool, fate: Fate)
    requires Paced(t, s)
    ensures KeepsPace(t, s, OnPermission(s, msg, chooses, fate))
  {
    hide OnlyReplied, Get;
  }

  lemma ElicitationSilence(t: Turn, s: Loop, msg: Json, opens: bool, work: nat, fate: Fate)
    requires Paced(t, s)
    ensures KeepsPace(t, s, OnElicitation(t, s, msg, opens, work, fate))
  {
    hide OnlyReplied, Get, At, ReplyAndGoOn;
    ReplySilence(t, s, Reply(At(msg, "id"), ElicitationReply), fate);
    if Get(msg, "id").Some? {
      ReplySilence(t, s, Reply(Get(msg, "id").value, ElicitationReply), fate);
    }
  }

  lemma UpdateSilence(t: Turn, s: Loop, msg: Json, work: nat)
    requires Paced(t, s)
    ensures
      var c := s.client.(activeRun := RunAfter(s.client, msg));
      var later := Tick(c, work);
      && KeepsPace(t, s, Continue(s)) && KeepsPace(t, s, Continue(s.(client := c)))
      && KeepsPace(t, s, Continue(s.(client := later, idleDeadline := later.now + t.idleTimeout, lastActivity := later.now)))
  {
    hide RunAfter;
  }

  lemma MethodSilence(t: Turn, s: Loop, msg: Json, hint: Hint, work: nat, fate: Fate)
    requires Paced(t, s)
    ensures KeepsPace(t, s, OnMethod(t, s, msg, hint, work, fate))
  {
    hide KeepsPace, RunAfter, StartsTool, Get, GetStr, OnPermission, OnElicitation, ReplyAndGoOn, ServesAgent;
    UpdateSilence(t, s, msg, work);
    PermissionSilence(t, s, msg, hint.choosesOption, fate);
    ElicitationSilence(t, s, msg, hint.opensQuestion, work, fate);
    if Get(msg, "id").Some? {
      ReplySilence(t, s, Reply(Get(msg, "id").value, MethodNotFound), fate);
    }
  }

  lemma FrameSilence(t: Turn, s: Loop, msg: Json, hint: Hint, work: nat, fate: Fate)
    ensures SilenceMoves(t, s, s.client.now, true, OnFrame(t, s, msg, hint, work, fate))
    ensures var step := OnFrame(t, s, msg, hint, work, fate); step.Continue? ==> step.loop.toolDeadline == hint.toolDeadline
  {
    hide OnMethod, JudgeAnswer, AnswersId, PromptOutcome, OnlyReplied;
    MethodSilence(t, Heard(t, s, hint), msg, hint, work, fate);
  }

  lemma SelectSilence(t: Turn, s: Loop, i: Input)
    ensures SilenceMoves(t, s, s.client.now, i.arm.Frame? || (i.arm.Answer? && s.question.Some? && i.fate.Delivered?), Select(t, s, i))
    ensures i.arm.Frame? && Select(t, s, i).Continue? ==> Select(t, s, i).loop.toolDeadline == i.arm.hint.toolDeadline
  {
    hide OnFrame, Expired, TimeoutError, SelectTransport, RefusalOf;
    match i.arm
    case Frame(msg, hint) => FrameSilence(t, s, msg, hint, i.work, i.fate);
    case _ =>
  }

  /** A pass restarts the silence clock, at the reading of its arm or later, exactly if it is a sign of life. Blank
      lines, garbage, steers, refused answers and timers leave it where it was. */
  lemma PassSilence(t: Turn, s: Loop, i: Input)
    ensures SilenceMoves(t, s, if Alive(s, i) then Reading(s, i) else s.client.now, Alive(s, i), Pass(t, s, i))
    ensures Paced(t, s) && Pass(t, s, i).Continue? ==> Paced(t, Pass(t, s, i).loop)
    ensures Alive(s, i) && i.arm.Frame? && Pass(t, s, i).Continue? ==> Pass(t, s, i).loop.toolDeadline == i.arm.hint.toolDeadline
  {
    hide Select, Expired, TimeoutError;
    SelectSilence(t, s.(client := Tick(Tick(s.client, i.before), i.wait)), i);
  }

  /** A tool call counts as activity until its handling is over. */
  lemma ToolCallIsActivity(t: Turn, s: Loop, i: Input, update: map<string, Json>)
    requires ReachesSelect(s, i) && i.arm.Frame? && "sessionUpdate" in update && update["sessionUpdate"] == Str("tool_call")
    requires i.arm.msg == Obj(map["method" := Str("session/update"), "params" := Obj(map["update" := Obj(update)])])
    ensures Pass(t, s, i).Continue? && Pass(t, s, i).loop.lastActivity == Reading(s, i) + i.work
    ensures Pass(t, s, i).loop.idleDeadline == Reading(s, i) + i.work + t.idleTimeout
  {
    hide Expired, TimeoutError, OnlyReplied, RunAfter;
    var msg := i.arm.msg;
    assert GetStr(msg, "method") == Some("session/update") && !IsResponse(msg);
    assert At(At(msg, "params"), "update") == Obj(update) && StartsTool(msg);
  }

  // ---------- never early ----------

  /** A timeout reports the silence there was, or the allowance that ran out. */
  lemma TimeoutSays(t: Turn, s: Loop, i: Input)
    requires Paced(t, s) && Pass(t, s, i).Exit? && Pass(t, s, i).outcome.Error?
    ensures
      var e := Pass(t, s, i).outcome.error;
      && (e.HardTimeout? ==> s.lastActivity + e.silence == Pass(t, s, i).client.now)
      && (e.IdleTimeout? ==> e.budget == if s.idleDeadline < s.toolDeadline then t.toolIdleTimeout else t.idleTimeout)
  {
    hide OnMethod, JudgeAnswer, AnswersId, OnlyReplied, Expired, SelectTransport;
  }

  /** From a state whose last sign of life is no earlier than `since`, an idle timeout comes a full idle timeout later. */
  lemma {:induction false} IdleFrom(t: Turn, s: Loop, script: seq<Input>, since: Time)
    requires Paced(t, s) && since <= s.lastActivity
    ensures
      var (c, o) := Finish(Run(t, s, script));
      && (o.Error? && o.error.IdleTimeout? ==> since + t.idleTimeout <= c.now && o.error.budget in {t.idleTimeout, t.toolIdleTimeout})
      && (o.Error? && o.error.HardTimeout? ==> since + o.error.silence <= c.now)
    decreases |script|
  {
    hide Pass, Alive;
    if script != [] {
      PassSilence(t, s, script[0]);
      PassTimeouts(t, s, script[0]);
      var step := Pass(t, s, script[0]);
      if step.Continue? {
        IdleFrom(t, step.loop, script[1..], since);
      } else if step.outcome.Error? {
        TimeoutSays(t, s, script[0]);
      }
    }
  }

  /** An idle timeout comes at least the idle timeout after the turn began. */
  lemma IdleTimeoutAfterStart(t: Turn, c: Client, hardDeadline: Time, script: seq<Input>)
    ensures
      var (d, o) := Finish(Run(t, Enter(t, c, hardDeadline), script));
      o.Error? && o.error.IdleTimeout? ==> c.now + t.idleTimeout <= d.now
  {
    hide Run;
    IdleFrom(t, Enter(t, c, hardDeadline), script, c.now);
  }

  /**
   Nor is it ever early after a sign of life: in every run that ends in an idle timeout, every pass that read a frame
   or delivered an answer did so at least the idle timeout before the end. And the silence that a hard timeout reports
   holds no sign of life.
   */
  lemma IdleTimeoutIsNeverEarly(t: Turn, c: Client, hardDeadline: Time, script: seq<Input>, k: nat, n: Loop)
    requires k < |script| && Run(t, Enter(t, c, hardDeadline), script[..k]) == Continue(n) && Alive(n, script[k])
    ensures
      var (d, o) := Finish(Run(t, Enter(t, c, hardDeadline), script));
      && (o.Error? && o.error.IdleTimeout? ==> Reading(n, script[k]) + t.idleTimeout <= d.now)
      && (o.Error? && o.error.HardTimeout? ==> Reading(n, script[k]) + o.error.silence <= d.now)
  {
    hide Pass, Alive;
    var s := Enter(t, c, hardDeadline);
    RunSplit(t, s, script, k);
    assert script[k..][0] == script[k];
    PassSilence(t, n, script[k]);
    AliveIsNoTimeout(t, n, script[k]);
    var step := Pass(t, n, script[k]);
    if step.Continue? {
      IdleFrom(t, step.loop, script[k..][1..], Reading(n, script[k]));
    }
  }

  lemma AliveIsNoTimeout(t: Turn, s: Loop, i: Input)
    requires Alive(s, i)
    ensures Pass(t, s, i).Exit? && Pass(t, s, i).outcome.Error? ==>
      !Pass(t, s, i).outcome.error.IdleTimeout? && !Pass(t, s, i).outcome.error.HardTimeout?
  {
    hide OnMethod, JudgeAnswer, AnswersId, OnlyReplied, Expired, TimeoutError;
  }

  // ---------- never late ----------

  /** No pass of a run is a sign of life. */
  ghost predicate Quiet(t: Turn, s: Loop, script: seq<Input>)
    decreases |script|
  {
    script == [] || (!Alive(s, script[0]) && (Pass(t, s, script[0]).Continue? ==> Quiet(t, Pass(t, s, script[0]).loop, script[1..])))
  }

  /** However many blank lines, garbage lines, steers and timers a quiet stretch holds, they postpone nothing. */
  lemma {:induction false} QuietPostponesNothing(t: Turn, s: Loop, script: seq<Input>)
    requires Quiet(t, s, script) && Run(t, s, script).Continue?
    ensures
      var n := Run(t, s, script).loop;
      && n.lastActivity == s.lastActivity && n.idleDeadline == s.idleDeadline && n.toolDeadline == s.toolDeadline
      && n.question == s.question && s.client.now <= n.client.now
    decreases |script|
  {
    hide Pass, Alive;
    if script != [] {
      PassSilence(t, s, script[0]);
      QuietPostponesNothing(t, Pass(t, s, script[0]).loop, script[1..]);
    }
  }

  /**
   Silence ends the turn: after a sign of life that leaves no question open, and then only quiet passes, once the clock
   is an idle timeout past that sign's pass and past the allowance of a running tool, the next pass returns a timeout,
   and it is the idle one unless the hard deadline was no later.
   */
  lemma SilenceEndsTheTurn(t: Turn, s: Loop, i: Input, quiet: seq<Input>, m: Loop, next: Input)
    requires Alive(s, i) && Pass(t, s, i).Continue? && Pass(t, s, i).loop.question.None?
    requires Quiet(t, Pass(t, s, i).loop, quiet) && Run(t, Pass(t, s, i).loop, quiet) == Continue(m)
    requires m.client.now >= Pass(t, s, i).loop.client.now + t.idleTimeout && m.client.now >= Pass(t, s, i).loop.toolDeadline
    ensures
      var step := Pass(t, m, next);
      && step.Exit? && step.outcome.Error? && (step.outcome.error.IdleTimeout? || step.outcome.error.HardTimeout?)
      && (step.outcome.error.IdleTimeout? <==> SilenceDeadline(m) < m.hardDeadline)
  {
    hide Select, Run, Quiet, Alive;
    PassSilence(t, s, i);
    QuietPostponesNothing(t, Pass(t, s, i).loop, quiet);
  }

  // ---------- a mute agent, from the readings alone ----------

  predicate Mute(script: seq<Input>) {
    forall i :: 0 <= i < |script| ==> script[i].arm.Blank? || script[i].arm.Garbage?
  }

  function Elapsed(script: seq<Input>): nat {
    if script == [] then 0 else script[0].before + script[0].wait + Elapsed(script[1..])
  }

  lemma {:induction false} MuteRun(t: Turn, s: Loop, script: seq<Input>, limit: Time)
    requires Mute(script) && s.question.None? && limit == SilenceDeadline(s) < s.hardDeadline && s.idleDeadline >= s.toolDeadline
    ensures s.client.now + Elapsed(script) < limit ==> Run(t, s, script) == Continue(s.(client := Tick(s.client, Elapsed(script))))
    ensures forall k :: 0 <= k < |script| && s.client.now + Elapsed(script[..k]) >= limit ==>
      Run(t, s, script).Exit? && Run(t, s, script).outcome == Error(IdleTimeout(t.idleTimeout))
    decreases |script|
  {
    if script != [] {
      var i, rest := script[0], script[1..];
      var n := s.(client := Tick(Tick(s.client, i.before), i.wait));
      if Expired(s.(client := Tick(s.client, i.before))) {
        assert Pass(t, s, i).Exit? && Pass(t, s, i).outcome == Error(IdleTimeout(t.idleTimeout));
      } else {
        assert Pass(t, s, i) == Continue(n);
        MuteRun(t, n, rest, limit);
        forall k | 0 <= k < |script| && s.client.now + Elapsed(script[..k]) >= limit
          ensures Run(t, n, rest).Exit? && Run(t, n, rest).outcome == Error(IdleTimeout(t.idleTimeout))
        {
          assert k > 0 && script[..k][0] == i && script[..k][1..] == rest[..k - 1];
          assert n.client.now + Elapsed(rest[..k - 1]) >= limit;
        }
      }
    }
  }

  /** An agent that sends nothing readable, from the readings of the inputs alone: the turn goes on as long as less than
      the idle timeout has passed, and has returned `IdleTimeout` by the first pass that starts with it behind. */
  lemma MuteAgentTimesOut(t: Turn, c: Client, hardDeadline: Time, script: seq<Input>)
    requires Mute(script) && c.now + t.idleTimeout < hardDeadline
    ensures Elapsed(script) < t.idleTimeout ==> Run(t, Enter(t, c, hardDeadline), script).Continue?
    ensures forall k :: 0 <= k < |script| && Elapsed(script[..k]) >= t.idleTimeout ==>
      Finish(Run(t, Enter(t, c, hardDeadline), script)).1 == Error(IdleTimeout(t.idleTimeout))
  {
    hide Run, Elapsed;
    MuteRun(t, Enter(t, c, hardDeadline), script, c.now + t.idleTimeout);
  }
}
