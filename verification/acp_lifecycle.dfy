/** What holds of a client over every sequence of calls, abandoned ones included. */
module AcpLifecycle {
  import opened Options
  import opened JsonValue
  import opened TurnLoop
  import opened TurnDeadlines
  import opened TurnRouting
  import opened AcpCalls

  /** A prompt in flight has a used identifier and a stored deadline; identifiers on the wire are in order. */
  ghost predicate Sound(c: Client) {
    && IdsInOrder(c)
    && (c.lastPromptId.Some? ==> c.lastPromptId.value < c.nextId && c.hardDeadline.Some?)
  }

  lemma OpenedIsRouted(c: Client, p: PromptCall)
    requires Sound(c)
    ensures Routed(PromptTurn(c, p), PromptLoop(c, p))
    ensures WithinBudget(PromptTurn(c, p), PromptLoop(c, p)) && Mirrored(PromptLoop(c, p))
    ensures Sound(Opened(c, p))
    ensures
      var d := PromptLoop(c, p).client;
      && d.nextId == c.nextId + 1 && d.now == c.now + p.delay && d.lastPromptId == Some(c.nextId)
      && PromptLoop(c, p).hardDeadline == c.now + p.maxDuration && PromptTurn(c, p).maxDuration == p.maxDuration
  {
  }

  /** How a prompt leaves the client: closed, or open with its identifier and a deadline within its budget. */
  ghost predicate PromptEnds(c: Client, p: PromptCall, d: Client, o: Outcome) {
    && Sound(d) && c.nextId < d.nextId && c.now <= d.now
    && d.lastPromptId == (if o.Abandoned? || IsTimeout(o) then Some(c.nextId) else None)
    && (d.lastPromptId.Some? ==> d.hardDeadline.Some? && c.now + p.maxDuration <= d.hardDeadline.value <= d.now + p.maxDuration)
    && (o.Response? ==> d.remainingBudget.Some? && d.remainingBudget.value <= p.maxDuration)
  }

  /** Closing a prompt whose loop ended with its own identifier and a deadline within its budget. */
  lemma ClosingEnds(c: Client, p: PromptCall, d: Client, o: Outcome)
    requires IdsInOrder(d) && c.nextId < d.nextId && c.now <= d.now && d.lastPromptId == Some(c.nextId)
    requires d.hardDeadline.Some? && c.now + p.maxDuration <= d.hardDeadline.value <= d.now + p.maxDuration
    ensures PromptEnds(c, p, ClosePrompt(d, o), o)
  {
    hide IdsInOrder;
    assert IdsInOrder(ClosePrompt(d, o)) by { SameWireSameOrder(d, ClosePrompt(d, o)); }
  }

  lemma SameWireSameOrder(c: Client, d: Client)
    requires IdsInOrder(c) && c.wire == d.wire && c.nextId <= d.nextId
    ensures IdsInOrder(d)
  {
  }

  lemma UnwrittenEnds(c: Client, p: PromptCall)
    requires Sound(c) && !p.fate.Delivered?
    ensures PromptEnds(c, p, DoPrompt(c, p).0, DoPrompt(c, p).1)
  {
    hide IdsInOrder;
    SameWireSameOrder(c, DoPrompt(c, p).0);
  }

  /** A prompt that timed out or was dropped stays in flight with its deadline; every other end closes it. */
  lemma PromptLifecycle(c: Client, p: PromptCall)
    requires Sound(c)
    ensures PromptEnds(c, p, DoPrompt(c, p).0, DoPrompt(c, p).1)
  {
    hide Run, Finish, Routed, PromptLoop, PromptTurn, WithinBudget, Mirrored, ClosePrompt, IdsInOrder;
    OpenedIsRouted(c, p);
    if p.fate.Delivered? {
      RunRouted(PromptTurn(c, p), PromptLoop(c, p), p.script);
      HardDeadlineOverRun(PromptTurn(c, p), PromptLoop(c, p), p.script);
      var (d, o) := Finish(Run(PromptTurn(c, p), PromptLoop(c, p), p.script));
      ClosingEnds(c, p, d, o);
    } else {
      UnwrittenEnds(c, p);
    }
  }

  /** Answering what is pending keeps identifiers in order and leaves no prompt in flight. */
  ghost predicate Quietened(c: Client, d: Client) {
    IdsInOrder(d) && d.nextId == c.nextId && d.lastPromptId.None?
  }

  lemma PermissionStageQuietens(c: Client)
    requires IdsInOrder(c)
    ensures Quietened(c, Claimed(c)) && Quietened(c, SettlePermission(Claimed(c)))
  {
  }

  lemma InputStageQuietens(c: Client, d: Client)
    requires Quietened(c, d)
    ensures Quietened(c, SettleInput(d))
  {
  }

  lemma DrainIsRouted(c: Client, quiet: Client, hardDeadline: Time, k: CancelCall)
    requires IdsInOrder(quiet) && c.lastPromptId.Some? && c.lastPromptId.value < quiet.nextId
    ensures Routed(DrainTurn(c, hardDeadline, k), DrainLoop(c, quiet, hardDeadline, k))
  {
  }

  /** A cancel consumes the prompt it finds, whatever becomes of its writes and its drain. */
  lemma CancelLifecycle(c: Client, hardDeadline: Time, k: CancelCall)
    requires IdsInOrder(c) && (c.lastPromptId.Some? ==> c.lastPromptId.value < c.nextId)
    ensures
      var d := CancelUntil(c, hardDeadline, k).0;
      Sound(d) && d.lastPromptId.None? && c.nextId <= d.nextId
  {
    hide Run, Finish, SettlePermission, SettleInput, DrainTurn, DrainLoop, Routed;
    if c.lastPromptId.Some? {
      PermissionStageQuietens(c);
      InputStageQuietens(c, SettlePermission(Claimed(c)));
      var quiet := SettleInput(SettlePermission(Claimed(c)));
      DrainIsRouted(c, quiet, hardDeadline, k);
      RunRouted(DrainTurn(c, hardDeadline, k), DrainLoop(c, quiet, hardDeadline, k), k.script);
      DrainStart(c, quiet, hardDeadline, k);
    }
  }

  lemma DrainStart(c: Client, quiet: Client, hardDeadline: Time, k: CancelCall)
    requires c.lastPromptId.Some?
    ensures DrainLoop(c, quiet, hardDeadline, k).client.lastPromptId == quiet.lastPromptId
    ensures DrainLoop(c, quiet, hardDeadline, k).client.nextId == quiet.nextId
  {
  }

  lemma {:induction false} RpcLifecycle(c: Client, id: nat, script: seq<Input>)
    requires Sound(c)
    ensures
      var d := RpcRun(c, id, script).0;
      Sound(d) && d.nextId == c.nextId && d.lastPromptId == c.lastPromptId
    decreases |script|
  {
    hide OnPermission, ReplyAndGoOn, OnlyReplied;
    if script != [] {
      RpcPassSound(c, id, script[0]);
      var step := RpcPass(c, id, script[0]);
      if step.Continue? {
        RpcLifecycle(step.loop.client, id, script[1..]);
      }
    }
  }

  lemma RpcPassSound(c: Client, id: nat, i: Input)
    requires Sound(c)
    ensures
      match RpcPass(c, id, i)
      case Continue(n) => Sound(n.client) && n.client.nextId == c.nextId && n.client.lastPromptId == c.lastPromptId
      case Exit(d, _) => Sound(d) && d.nextId == c.nextId && d.lastPromptId == c.lastPromptId
  {
    hide OnPermission, ReplyAndGoOn, RunAfter, PromptOutcome;
    if i.arm.Frame? {
      var step := RpcMethod(c, i.arm.msg, i.arm.hint, i.fate);
      if step.Exit? {
        if OnlyReplied(c, step.client) { RepliesKeepOrder(c, step.client); }
      } else if OnlyReplied(c, step.loop.client) {
        RepliesKeepOrder(c, step.loop.client);
      }
    }
  }

  /** The identifier that the next cancel could consume is at least this. */
  function Floor(c: Client): nat {
    if c.lastPromptId.Some? then c.lastPromptId.value else c.nextId
  }

  /** Every call keeps the client sound, and no identifier a cancel has consumed can come back. */
  lemma CallIsSound(c: Client, call: Call)
    requires Sound(c)
    ensures Sound(Apply(c, call))
    ensures Floor(c) <= Floor(Apply(c, call))
    ensures (call.Cancel? || call.CancelGrace?) ==>
      Apply(c, call).lastPromptId.None? && (c.lastPromptId.Some? ==> c.lastPromptId.value < Floor(Apply(c, call)))
  {
    hide DoPrompt, CancelUntil, RpcRun, IdsInOrder;
    match call
    case Prompt(p) => PromptLifecycle(c, p);
    case Cancel(k) =>
      DeadlineIsNotWire(c, None);
      CancelLifecycle(c.(hardDeadline := None), CleanupDeadline(c), k);
    case CancelGrace(grace, k) =>
      DeadlineIsNotWire(c, None);
      CancelLifecycle(c.(hardDeadline := None), c.now + grace, k);
    case Rpc(rpc, fate, script) =>
      NumberingKeepsOrder(c, rpc);
      RpcLifecycle(Written(c.(nextId := c.nextId + 1), Request(c.nextId, rpc), Delivered), c.nextId, script);
    case _ => OtherCallsKeepOrder(c, call);
  }

  lemma DeadlineIsNotWire(c: Client, d: Option<Time>)
    requires IdsInOrder(c)
    ensures IdsInOrder(c.(hardDeadline := d))
  {
  }

  lemma NumberingKeepsOrder(c: Client, rpc: string)
    requires Sound(c)
    ensures Sound(c.(nextId := c.nextId + 1))
    ensures Sound(Written(c.(nextId := c.nextId + 1), Request(c.nextId, rpc), Delivered))
  {
  }

  lemma OtherCallsKeepOrder(c: Client, call: Call)
    requires IdsInOrder(c)
    requires call.InstallReceiver? || call.ClearReceiver? || call.SetTurn? || call.Wait?
    ensures IdsInOrder(Apply(c, call))
  {
  }

  /** Where every client starts. */
  lemma FreshIsSound(steering: bool, strictSteering: bool, now: Time)
    ensures Sound(Fresh(steering, strictSteering, now))
  {
  }

  /** Over every sequence of calls: a prompt in flight always has a stored deadline, and request identifiers stay in order. */
  lemma {:induction false} AlwaysSound(c: Client, calls: seq<Call>)
    requires Sound(c)
    ensures Sound(ApplyAll(c, calls))
    decreases |calls|
  {
    hide Apply, Sound;
    if calls != [] {
      CallIsSound(c, calls[0]);
      AlwaysSound(Apply(c, calls[0]), calls[1..]);
    }
  }

  /** The prompt identifiers that the cancels of a run consume, in order. */
  ghost function Consumed(c: Client, calls: seq<Call>): seq<nat>
    decreases |calls|
  {
    if calls == [] then []
    else
      var rest := Consumed(Apply(c, calls[0]), calls[1..]);
      if (calls[0].Cancel? || calls[0].CancelGrace?) && c.lastPromptId.Some? then [c.lastPromptId.value] + rest else rest
  }

  /** Over every sequence of calls each prompt is consumed by at most one cancel: the consumed identifiers increase. */
  lemma {:induction false} EachPromptCancelledOnce(c: Client, calls: seq<Call>)
    requires Sound(c)
    ensures forall i :: 0 <= i < |Consumed(c, calls)| ==> Floor(c) <= Consumed(c, calls)[i]
    ensures forall i, j :: 0 <= i < j < |Consumed(c, calls)| ==> Consumed(c, calls)[i] < Consumed(c, calls)[j]
    decreases |calls|
  {
    hide Apply, Sound;
    if calls != [] {
      CallIsSound(c, calls[0]);
      EachPromptCancelledOnce(Apply(c, calls[0]), calls[1..]);
    }
  }

  /** In every reachable state a cancel of a prompt in flight runs to the later of the stored deadline and the floor. */
  lemma CleanupInheritsDeadline(c: Client, calls: seq<Call>)
    requires Sound(c)
    ensures
      var d := ApplyAll(c, calls);
      d.lastPromptId.Some? ==>
        d.hardDeadline.Some? && CleanupDeadline(d) == Later(d.hardDeadline.value, d.now + 30_000)
  {
    hide Apply, IdsInOrder;
    AlwaysSound(c, calls);
  }

  /** A cancel's drain never gives up on the hard clock before its deadline. */
  lemma DrainKeepsItsDeadline(c: Client, hardDeadline: Time, k: CancelCall)
    ensures
      var (d, o) := CancelUntil(c, hardDeadline, k);
      o.Error? && o.error.HardTimeout? ==> hardDeadline <= d.now
  {
    hide Run, Finish, SettlePermission, SettleInput;
    if c.lastPromptId.Some? {
      var quiet := SettleInput(SettlePermission(Claimed(c)));
      StagesKeepTime(c);
      HardTimeoutIsNeverEarly(DrainTurn(c, hardDeadline, k), DrainLoop(c, quiet, hardDeadline, k), k.script);
    }
  }

  lemma StagesKeepTime(c: Client)
    ensures SettleInput(SettlePermission(Claimed(c))).now == c.now
  {
  }

  /** A cancel with no prompt in flight fails before it touches anything but the stored deadline. */
  lemma IdleCancelWritesNothing(c: Client, grace: nat, k: CancelCall)
    requires c.lastPromptId.None?
    ensures DoCancel(c, k) == (c.(hardDeadline := None), Error(NoPromptInFlight))
    ensures DoCancelGrace(c, grace, k) == (c.(hardDeadline := None), Error(NoPromptInFlight))
  {
  }

  /** The grace variant never reports the turn's hard cap: where the drain runs into its deadline it says so, with the
      grace it was given, and otherwise it returns what the drain returns. */
  lemma GraceNeverHardTimeout(c: Client, grace: nat, k: CancelCall)
    ensures
      var o := DoCancelGrace(c, grace, k).1;
      var drained := CancelUntil(c.(hardDeadline := None), c.now + grace, k).1;
      && !(o.Error? && o.error.HardTimeout?)
      && o == (if drained.Error? && drained.error.HardTimeout? then Error(CancelDrainTimeout(grace)) else drained)
  {
    hide CancelUntil;
  }
}
