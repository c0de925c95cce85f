/** Every steer request that a turn takes is settled exactly once, and how each exit settles it. */
module TurnSettlement {
  import opened Options
  import opened JsonValue
  import opened TurnLoop

  /** How often a ticket is settled in a log. */
  ghost function Settlements(log: seq<(nat, Settlement)>, k: nat): nat {
    if log == [] then 0
    else Settlements(log[..|log| - 1], k) + (if log[|log| - 1].0 == k then 1 else 0)
  }

  ghost function InFlight(p: Option<Pending>, k: nat): nat {
    if p.Some? && p.value.request.ticket == k then 1 else 0
  }

  /** The deadline check at the top of a pass lets it go on to the select. */
  predicate ReachesSelect(s: Loop, i: Input) {
    !Expired(s.(client := Tick(s.client, i.before)))
  }

  /** A pass takes a request from the steer channel. */
  predicate Takes(s: Loop, i: Input) {
    ReachesSelect(s, i) && i.arm.Steer? && TakesSteer(s)
  }

  ghost function TakenBy(s: Loop, i: Input, k: nat): nat {
    if Takes(s, i) && i.arm.request.ticket == k then 1 else 0
  }

  /** How often a whole script takes a ticket from the channel. */
  ghost function Taken(t: Turn, s: Loop, script: seq<Input>, k: nat): nat
    decreases |script|
  {
    if script == [] then 0
    else match Pass(t, s, script[0])
      case Exit(_, _) => TakenBy(s, script[0], k)
      case Continue(next) => TakenBy(s, script[0], k) + Taken(t, next, script[1..], k)
  }

  ghost function Account(s: Loop, k: nat): nat {
    Settlements(s.client.settled, k) + InFlight(s.pending, k)
  }

  ghost function AccountAfter(step: Step, k: nat): nat {
    match step
    case Continue(n) => Account(n, k)
    case Exit(c, _) => Settlements(c.settled, k)
  }

  lemma AppendSettles(log: seq<(nat, Settlement)>, entry: (nat, Settlement), k: nat)
    ensures Settlements(log + [entry], k) == Settlements(log, k) + (if entry.0 == k then 1 else 0)
  {
    assert (log + [entry])[..|log|] == log;
  }

  lemma SettleAccount(c: Client, p: Option<Pending>, st: Settlement, k: nat)
    ensures Settlements(Settle(c, p, st).settled, k) == Settlements(c.settled, k) + InFlight(p, k)
  {
    if p.Some? {
      AppendSettles(c.settled, (p.value.request.ticket, st), k);
    }
  }

  lemma SteerAccount(t: Turn, s: Loop, r: SteerRequest, fate: Fate, k: nat)
    requires s.pending.None?
    ensures AccountAfter(OnSteer(t, s, r, fate), k) == Account(s, k) + (if r.ticket == k then 1 else 0)
  {
    AppendSettles(s.client.settled, (r.ticket, Answered(Failed(RefusalOf(s.client, r)))), k);
    AppendSettles(s.client.settled, (r.ticket, Answered(Failed(TransportFailed))), k);
    AppendSettles(s.client.settled, (r.ticket, SenderDropped), k);
  }

  lemma SteerAnswerAccount(t: Turn, s: Loop, p: Pending, msg: Json, work: nat, k: nat)
    requires s.pending == Some(p)
    ensures AccountAfter(OnSteerAnswer(t, s, p, msg, work), k) == Account(s, k)
  {
    hide JudgeAnswer, Settlements;
    SettleAccount(Tick(s.client, work), s.pending, Answered(JudgeAnswer(t, p, msg).ack), k);
  }

  lemma FrameAccount(t: Turn, s: Loop, msg: Json, hint: Hint, work: nat, fate: Fate, k: nat)
    ensures AccountAfter(OnFrame(t, s, msg, hint, work, fate), k) == Account(s, k)
  {
    hide OnMethod, OnSteerAnswer, PromptOutcome, Settlements, OnlyReplied;
    SettleAccount(s.client, s.pending, SenderDropped, k);
    SettleAccount(s.client, s.pending, Answered(PromptCompletedNeutral), k);
    var live := Heard(t, s, hint);
    if s.pending.Some? {
      SteerAnswerAccount(t, live, s.pending.value, msg, work, k);
    }
  }

  lemma AnswerAccount(t: Turn, s: Loop, work: nat, fate: Fate, k: nat)
    requires s.question.Some?
    ensures AccountAfter(OnAnswer(t, s, work, fate), k) == Account(s, k)
  {
    hide Settlements;
    SettleAccount(s.client.(pendingInput := None), s.pending, SenderDropped, k);
  }

  lemma SelectConserves(t: Turn, s: Loop, i: Input, k: nat)
    ensures AccountAfter(Select(t, s, i), k)
      == Account(s, k) + (if i.arm.Steer? && TakesSteer(s) && i.arm.request.ticket == k then 1 else 0)
  {
    hide OnFrame, OnSteer, OnAnswer, Expired, TimeoutError, Settlements;
    SettleAccount(s.client, s.pending, Answered(PromptCompletedNeutral), k);
    match i.arm
    case Frame(msg, hint) => FrameAccount(t, s, msg, hint, i.work, i.fate, k);
    case Steer(r) =>
      if s.pending.None? { SteerAccount(t, s, r, i.fate, k); }
    case Answer =>
      if s.question.Some? { AnswerAccount(t, s, i.work, i.fate, k); }
    case _ =>
  }

  /** A pass settles what it takes, or keeps it in flight; it never settles anything else. */
  lemma PassConserves(t: Turn, s: Loop, i: Input, k: nat)
    ensures AccountAfter(Pass(t, s, i), k) == Account(s, k) + TakenBy(s, i, k)
  {
    hide Select, Expired, TimeoutError, Settlements;
    var c := Tick(s.client, i.before);
    SettleAccount(c, s.pending, Answered(PromptCompletedNeutral), k);
    SelectConserves(t, s.(client := Tick(c, i.wait)), i, k);
  }

  /**
   Over every script and for every ticket: when the turn is over the ticket has been settled as often as it
   was settled before, was in flight at the start, and was taken. A request taken once is settled once.
   */
  lemma {:induction false} SettledExactlyOnce(t: Turn, s: Loop, script: seq<Input>, k: nat)
    ensures Settlements(Finish(Run(t, s, script)).0.settled, k) == Account(s, k) + Taken(t, s, script, k)
    decreases |script|
  {
    hide Pass, TakenBy, Settlements;
    if script == [] {
      SettleAccount(s.client, s.pending, SenderDropped, k);
    } else {
      PassConserves(t, s, script[0], k);
      var step := Pass(t, s, script[0]);
      if step.Continue? {
        SettledExactlyOnce(t, step.loop, script[1..], k);
      }
    }
  }

  /** What a turn that ends with a steer in flight tells it: nothing exactly on the abrupt exits, the neutral ack otherwise. */
  function ExitSettlement(o: Outcome): Settlement {
    if LosesSender(o) then SenderDropped else Answered(PromptCompletedNeutral)
  }

  /** The log after one pass: it grows, by the exit's settlement of the pending steer when the pass is an exit. */
  ghost predicate LogGrows(s: Loop, step: Step) {
    match step
    case Continue(n) => s.client.settled <= n.client.settled && s.client.dispatched <= n.client.dispatched
    case Exit(c, o) =>
      && s.client.dispatched <= c.dispatched
      && (s.pending.Some? ==> c.settled == Settle(s.client, s.pending, ExitSettlement(o)).settled)
      && (s.pending.None? ==> s.client.settled <= c.settled)
      && (s.pending.None? && !o.Abandoned? ==> c.settled == s.client.settled)
  }

  lemma SteerAnswerLog(t: Turn, s: Loop, p: Pending, msg: Json, work: nat)
    ensures
      var step := OnSteerAnswer(t, s, p, msg, work);
      && step.Continue? && step.loop.client.dispatched == s.client.dispatched
      && step.loop.client.settled == s.client.settled + [(p.request.ticket, Answered(JudgeAnswer(t, p, msg).ack))]
  {
    hide JudgeAnswer;
  }

  lemma FrameLog(t: Turn, s: Loop, msg: Json, hint: Hint, work: nat, fate: Fate)
    ensures LogGrows(s, OnFrame(t, s, msg, hint, work, fate))
  {
    hide OnMethod, OnSteerAnswer, AnswersId;
    if s.pending.Some? {
      SteerAnswerLog(t, Heard(t, s, hint), s.pending.value, msg, work);
    }
  }

  lemma SteerLog(t: Turn, s: Loop, r: SteerRequest, fate: Fate)
    requires s.pending.None?
    ensures LogGrows(s, OnSteer(t, s, r, fate))
  {
    hide SelectTransport;
  }

  lemma AnswerLog(t: Turn, s: Loop, work: nat, fate: Fate)
    requires s.question.Some?
    ensures LogGrows(s, OnAnswer(t, s, work, fate))
  {
  }

  lemma SelectLog(t: Turn, s: Loop, i: Input)
    ensures LogGrows(s, Select(t, s, i))
  {
    hide OnFrame, OnSteer, OnAnswer, Expired;
    match i.arm
    case Frame(msg, hint) => FrameLog(t, s, msg, hint, i.work, i.fate);
    case Steer(r) =>
      if s.pending.None? { SteerLog(t, s, r, i.fate); }
    case Answer =>
      if s.question.Some? { AnswerLog(t, s, i.work, i.fate); }
    case _ =>
  }

  lemma PassLog(t: Turn, s: Loop, i: Input)
    ensures LogGrows(s, Pass(t, s, i))
  {
    hide Select, Expired;
    SelectLog(t, s.(client := Tick(Tick(s.client, i.before), i.wait)), i);
  }

  /**
   A turn that returns does so in one pass, and the steer in flight at that pass gets the settlement of its
   exit: the neutral ack on every timeout, end of stream, codec error and prompt response.
   */
  lemma {:induction false} ExitSettlesPending(t: Turn, s: Loop, script: seq<Input>) returns (k: nat, last: Loop)
    requires Run(t, s, script).Exit?
    ensures k < |script| && Run(t, s, script[..k]) == Continue(last)
    ensures Pass(t, last, script[k]) == Run(t, s, script)
    ensures LogGrows(last, Run(t, s, script))
    decreases |script|
  {
    hide Pass, LogGrows;
    match Pass(t, s, script[0])
    case Exit(_, _) =>
      k, last := 0, s;
      PassLog(t, s, script[0]);
    case Continue(next) =>
      k, last := ExitSettlesPending(t, next, script[1..]);
      assert script[..k + 1][1..] == script[1..][..k];
      k := k + 1;
  }

  /** Settlements are never taken back. */
  lemma {:induction false} SettlementsArePermanent(t: Turn, s: Loop, script: seq<Input>)
    ensures s.client.settled <= Finish(Run(t, s, script)).0.settled
    ensures s.client.dispatched <= Finish(Run(t, s, script)).0.dispatched
    decreases |script|
  {
    hide Pass;
    if script != [] {
      PassLog(t, s, script[0]);
      var step := Pass(t, s, script[0]);
      if step.Continue? {
        SettlementsArePermanent(t, step.loop, script[1..]);
      }
    }
  }

  // ---------- when a sender is dropped ----------

  /** A frame whose handling makes a reply that could not be written, or needs an identifier it does not have. */
  predicate FrameFails(s: Loop, msg: Json, hint: Hint, fate: Fate) {
    var id := Get(msg, "id");
    match GetStr(msg, "method")
    case None => false
    case Some(rpc) =>
      if rpc == "session/update" || rpc == "_goose/unstable/session/update" then false
      else if rpc == "session/request_permission" then id.None? || !fate.Delivered?
      else if rpc == "elicitation/create" then
        if s.question.Some? then !fate.Delivered? else id.None? || (!hint.opensQuestion && !fate.Delivered?)
      else id.Some? && !fate.Delivered?
  }

  /** The passes that leave through an error instead of an answer. */
  predicate LeavesAbruptly(s: Loop, i: Input) {
    && ReachesSelect(s, i)
    && match i.arm
       case Frame(msg, hint) => FrameFails(s, msg, hint, i.fate)
       case Answer => s.question.Some? && !i.fate.Delivered?
       case _ => false
  }

  lemma MethodDrops(t: Turn, s: Loop, msg: Json, hint: Hint, work: nat, fate: Fate)
    ensures OnMethod(t, s, msg, hint, work, fate).Exit? <==> FrameFails(s, msg, hint, fate)
  {
    hide OnlyReplied, RunAfter, StartsTool, Get, GetStr;
    FrameMethods(t, s, msg, hint, work, fate);
  }

  lemma FrameMethods(t: Turn, s: Loop, msg: Json, hint: Hint, work: nat, fate: Fate)
    ensures OnPermission(s, msg, hint.choosesOption, fate).Exit? <==> Get(msg, "id").None? || !fate.Delivered?
    ensures OnElicitation(t, s, msg, hint.opensQuestion, work, fate).Exit? <==>
      if s.question.Some? then !fate.Delivered? else Get(msg, "id").None? || (!hint.opensQuestion && !fate.Delivered?)
    ensures forall id :: ReplyAndGoOn(s, Reply(id, MethodNotFound), fate).Exit? <==> !fate.Delivered?
  {
    hide OnlyReplied, Get;
  }

  /** A frame with a method answers nothing. */
  lemma MethodAnswersNothing(msg: Json, id: nat)
    requires GetStr(msg, "method").Some?
    ensures !AnswersId(msg, id)
  {
  }

  ghost predicate DropsSender(s: Loop, step: Step) {
    s.pending.Some? && ClientAfter(step).settled == s.client.settled + [(s.pending.value.request.ticket, SenderDropped)]
  }

  lemma FrameDrops(t: Turn, s: Loop, msg: Json, hint: Hint, work: nat, fate: Fate)
    requires s.pending.Some?
    ensures DropsSender(s, OnFrame(t, s, msg, hint, work, fate)) <==> FrameFails(s, msg, hint, fate)
  {
    hide OnMethod, OnSteerAnswer, AnswersId, PromptOutcome, OnlyReplied;
    var live := Heard(t, s, hint);
    MethodDrops(t, live, msg, hint, work, fate);
    assert FrameFails(live, msg, hint, fate) == FrameFails(s, msg, hint, fate);
    SteerAnswerLog(t, live, s.pending.value, msg, work);
    JudgedIsNotDropped(s.client.settled, s.pending.value.request.ticket, JudgeAnswer(t, s.pending.value, msg).ack);
    JudgedIsNotDropped(s.client.settled, s.pending.value.request.ticket, PromptCompletedNeutral);
    if GetStr(msg, "method").Some? {
      MethodAnswersNothing(msg, s.pending.value.id);
      MethodAnswersNothing(msg, t.promptId);
    }
  }

  lemma JudgedIsNotDropped(log: seq<(nat, Settlement)>, k: nat, ack: SteerAck)
    ensures log + [(k, Answered(ack))] != log + [(k, SenderDropped)] && log != log + [(k, SenderDropped)]
  {
    assert (log + [(k, Answered(ack))])[|log|] != (log + [(k, SenderDropped)])[|log|];
  }

  lemma SelectDrops(t: Turn, s: Loop, i: Input)
    requires s.pending.Some?
    ensures DropsSender(s, Select(t, s, i)) <==>
      match i.arm
      case Frame(msg, hint) => FrameFails(s, msg, hint, i.fate)
      case Answer => s.question.Some? && !i.fate.Delivered?
      case _ => false
  {
    hide OnFrame, OnSteer, FrameFails, Expired, TimeoutError;
    JudgedIsNotDropped(s.client.settled, s.pending.value.request.ticket, PromptCompletedNeutral);
    if i.arm.Frame? {
      FrameDrops(t, s, i.arm.msg, i.arm.hint, i.work, i.fate);
    }
  }

  /**
   With a steer in flight, a pass drops its sender without an answer exactly when it gets to the select and handles an
   agent request whose reply is not delivered, or one that lacks the identifier it must have, or fails to deliver the
   user's answer. On every other pass the steer is answered, told that the prompt completed, or stays in flight.
   */
  lemma SenderDroppedExactlyWhen(t: Turn, s: Loop, i: Input)
    requires s.pending.Some?
    ensures DropsSender(s, Pass(t, s, i)) <==> LeavesAbruptly(s, i)
  {
    hide Select, Expired, TimeoutError, FrameFails;
    var c := Tick(s.client, i.before);
    var woken := s.(client := Tick(c, i.wait));
    JudgedIsNotDropped(s.client.settled, s.pending.value.request.ticket, PromptCompletedNeutral);
    SelectDrops(t, woken, i);
    FailureIgnoresClock(s, woken, i);
  }

  lemma FailureIgnoresClock(s: Loop, woken: Loop, i: Input)
    requires woken == s.(client := woken.client)
    ensures i.arm.Frame? ==> FrameFails(s, i.arm.msg, i.arm.hint, i.fate) == FrameFails(woken, i.arm.msg, i.arm.hint, i.fate)
  {
  }

  /** The promise of a neutral ack on every return is broken: a steer is sent, then a permission request without an identifier arrives. */
  lemma SenderCanBeLost(c: Client, t: Turn, r: SteerRequest, hardDeadline: Time, hint: Hint)
    requires c.receiver && c.activeRun.Some? && r.target.None? && c.now < hardDeadline && t.idleTimeout > 0
    ensures
      var ask := Obj(map["method" := Str("session/request_permission")]);
      var script := [Input(0, 0, 0, Delivered, Steer(r)), Input(0, 0, 0, Delivered, Frame(ask, hint))];
      Finish(Run(t, Enter(t, c, hardDeadline), script)) ==
        (c.(nextId := c.nextId + 1, wire := c.wire + [Request(c.nextId, GOOSE_STEER)],
            dispatched := c.dispatched + {r.ticket}, settled := c.settled + [(r.ticket, SenderDropped)]),
         Error(MissingRequestId))
  {
    var ask := Obj(map["method" := Str("session/request_permission")]);
    var first, second := Input(0, 0, 0, Delivered, Steer(r)), Input(0, 0, 0, Delivered, Frame(ask, hint));
    var s := Enter(t, c, hardDeadline);
    var n := OnSteer(t, s, r, Delivered).loop;
    assert Pass(t, s, first) == Continue(n);
    assert Get(ask, "id").None? && GetStr(ask, "method") == Some("session/request_permission");
    assert !AnswersId(ask, n.pending.value.id) && !AnswersId(ask, t.promptId);
    var end := OnMethod(t, Heard(t, n, hint), ask, hint, 0, Delivered);
    assert Pass(t, n, second) == end;
    assert [first, second][1..] == [second];
    assert Run(t, n, [second]) == end;
  }
}
