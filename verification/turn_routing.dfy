/** Message routing: request identifiers are fresh, and no frame is mistaken for another. */
module TurnRouting {
  import opened Options
  import opened JsonValue
  import opened TurnLoop
  import opened TurnSettlement

  /** Request identifiers on the wire are strictly increasing and already used up. */
  ghost predicate IdsInOrder(c: Client) {
    && (forall i :: 0 <= i < |c.wire| && c.wire[i].Request? ==> c.wire[i].id < c.nextId)
    && (forall i, j :: 0 <= i < j < |c.wire| && c.wire[i].Request? && c.wire[j].Request? ==> c.wire[i].id < c.wire[j].id)
  }

  ghost predicate Routed(t: Turn, s: Loop) {
    && IdsInOrder(s.client)
    && t.promptId < s.client.nextId
    && (s.pending.Some? ==> t.promptId < s.pending.value.id < s.client.nextId)
    && (s.pending.Some? ==> Request(s.pending.value.id, SteerRpc(s.pending.value.transport)) in s.client.wire)
    && (s.pending.Some? ==> s.pending.value.request.ticket in s.client.dispatched)
  }

  ghost predicate StaysRouted(t: Turn, s: Loop, step: Step) {
    match step
    case Continue(n) => Routed(t, n) && Succeeds(s.client, n.client)
    case Exit(c, _) => IdsInOrder(c) && Succeeds(s.client, c)
  }

  /** What was written stays written, identifiers are not given back, and the turn keeps its prompt. */
  ghost predicate Succeeds(a: Client, b: Client) {
    a.wire <= b.wire && a.nextId <= b.nextId && a.lastPromptId == b.lastPromptId
  }

  lemma SteerRouted(t: Turn, s: Loop, r: SteerRequest, fate: Fate)
    requires Routed(t, s) && s.pending.None?
    ensures StaysRouted(t, s, OnSteer(t, s, r, fate))
  {
    hide SelectTransport;
  }

  lemma RepliesKeepOrder(a: Client, b: Client)
    requires OnlyReplied(a, b) && IdsInOrder(a)
    ensures IdsInOrder(b) && a.wire <= b.wire
  {
  }

  lemma ServedRouted(t: Turn, s: Loop, step: Step)
    requires Routed(t, s) && ServesAgent(s, step)
    ensures StaysRouted(t, s, step)
  {
    RepliesKeepOrder(s.client, if step.Continue? then step.loop.client else step.client);
  }

  lemma SteerAnswerRouted(t: Turn, s: Loop, p: Pending, msg: Json, work: nat)
    requires Routed(t, s)
    ensures StaysRouted(t, s, OnSteerAnswer(t, s, p, msg, work))
  {
    hide JudgeAnswer;
  }

  lemma FrameRouted(t: Turn, s: Loop, msg: Json, hint: Hint, work: nat, fate: Fate)
    requires Routed(t, s)
    ensures StaysRouted(t, s, OnFrame(t, s, msg, hint, work, fate))
  {
    hide OnMethod, OnSteerAnswer, PromptOutcome, OnlyReplied;
    var live := Heard(t, s, hint);
    if s.pending.Some? && AnswersId(msg, s.pending.value.id) {
      SteerAnswerRouted(t, live, s.pending.value, msg, work);
    } else if !AnswersId(msg, t.promptId) {
      ServedRouted(t, live, OnMethod(t, live, msg, hint, work, fate));
    }
  }

  lemma AnswerRouted(t: Turn, s: Loop, work: nat, fate: Fate)
    requires Routed(t, s) && s.question.Some?
    ensures StaysRouted(t, s, OnAnswer(t, s, work, fate))
  {
  }

  lemma SelectRouted(t: Turn, s: Loop, i: Input)
    requires Routed(t, s)
    ensures StaysRouted(t, s, Select(t, s, i))
  {
    hide OnFrame, OnSteer, OnAnswer, Expired, TimeoutError, IdsInOrder;
    match i.arm
    case Frame(msg, hint) => FrameRouted(t, s, msg, hint, i.work, i.fate);
    case Steer(r) =>
      if s.pending.None? { SteerRouted(t, s, r, i.fate); }
    case Answer =>
      if s.question.Some? { AnswerRouted(t, s, i.work, i.fate); }
    case _ => assert IdsInOrder(Settle(s.client, s.pending, Answered(PromptCompletedNeutral))) by { SettleKeepsIds(s.client, s.pending, Answered(PromptCompletedNeutral)); }
  }

  lemma SettleKeepsIds(c: Client, p: Option<Pending>, st: Settlement)
    requires IdsInOrder(c)
    ensures IdsInOrder(Settle(c, p, st))
  {
  }

  lemma PassRouted(t: Turn, s: Loop, i: Input)
    requires Routed(t, s)
    ensures StaysRouted(t, s, Pass(t, s, i))
  {
    hide Select, Expired, TimeoutError;
    SelectRouted(t, s.(client := Tick(Tick(s.client, i.before), i.wait)), i);
  }

  /** Over every script, written request identifiers stay distinct and increasing. */
  lemma {:induction false} RunRouted(t: Turn, s: Loop, script: seq<Input>)
    requires Routed(t, s)
    ensures IdsInOrder(Finish(Run(t, s, script)).0)
    ensures Succeeds(s.client, Finish(Run(t, s, script)).0)
    ensures Run(t, s, script).Continue? ==> Routed(t, Run(t, s, script).loop)
    decreases |script|
  {
    hide Pass;
    if script != [] {
      PassRouted(t, s, script[0]);
      var step := Pass(t, s, script[0]);
      if step.Continue? {
        RunRouted(t, step.loop, script[1..]);
      }
    }
  }

  /** At every point of every run at most one of the steer and the prompt is answered by a frame. */
  lemma NoFrameAnswersBoth(t: Turn, s: Loop, script: seq<Input>, msg: Json)
    requires Routed(t, s) && Run(t, s, script).Continue?
    ensures
      var n := Run(t, s, script).loop;
      n.pending.Some? ==> !(AnswersId(msg, n.pending.value.id) && AnswersId(msg, t.promptId))
  {
    hide Run;
    RunRouted(t, s, script);
  }

  /** A frame that carries a method is never consumed as a response, even when its id matches. */
  lemma MethodIsNeverAResponse(t: Turn, s: Loop, i: Input)
    requires i.arm.Frame? && Get(i.arm.msg, "method").Some?
    ensures
      match Pass(t, s, i)
      case Continue(n) => n.pending == s.pending && n.client.settled == s.client.settled
      case Exit(_, o) => !o.Response? && !(o.Error? && o.error.AgentFault?)
  {
    hide OnMethod;
  }

  /** What an answering frame says: its error member if it has one, its result member otherwise. */
  predicate Conveys(msg: Json, o: Outcome) {
    match Get(msg, "error")
    case Some(e) => o == Error(AgentFault(e))
    case None => o == Response(match Get(msg, "result") { case Some(v) => v case None => Null })
  }

  /** The prompt's own result is returned exactly for a response frame with the prompt's id that reaches the loop. */
  lemma PromptResultIsItsOwn(t: Turn, s: Loop, i: Input)
    requires Routed(t, s)
    ensures
      (Pass(t, s, i).Exit? && (Pass(t, s, i).outcome.Response? || (Pass(t, s, i).outcome.Error? && Pass(t, s, i).outcome.error.AgentFault?)))
      <==> (ReachesSelect(s, i) && i.arm.Frame? && AnswersId(i.arm.msg, t.promptId))
    ensures ReachesSelect(s, i) && i.arm.Frame? && AnswersId(i.arm.msg, t.promptId) ==> Conveys(i.arm.msg, Pass(t, s, i).outcome)
  {
    hide OnMethod, IdsInOrder, SelectTransport;
  }

  /** A steer in flight leaves the loop's hands, while the loop goes on, exactly by a response frame with its id. */
  lemma SteerAnswerIsItsOwn(t: Turn, s: Loop, i: Input)
    requires s.pending.Some? && Pass(t, s, i).Continue?
    ensures Pass(t, s, i).loop.pending == None
      <==> i.arm.Frame? && AnswersId(i.arm.msg, s.pending.value.id)
    ensures Pass(t, s, i).loop.pending.Some? ==> Pass(t, s, i).loop.pending == s.pending
  {
    hide OnMethod, SelectTransport;
  }
}
