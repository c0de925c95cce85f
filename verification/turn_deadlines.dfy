/** The two clocks of a turn: who moves the hard deadline, and that nothing can outrun it. */
module TurnDeadlines {
  import opened Options
  import opened JsonValue
  import opened TurnLoop
  import opened TurnSettlement

  predicate WithinBudget(t: Turn, s: Loop) {
    s.hardDeadline <= s.client.now + t.maxDuration
  }

  /** The deadline kept for a later cancel is the one the loop uses. */
  predicate Mirrored(s: Loop) {
    s.client.hardDeadline == Some(s.hardDeadline)
  }

  /** The three things that give a turn a new budget. */
  predicate Renews(s: Loop, i: Input) {
    ReachesSelect(s, i) &&
    match i.arm
    case Answer => s.question.Some? && i.fate.Delivered?
    case Frame(msg, _) => AnswerRenews(s.pending, msg)
    case _ => false
  }

  /** The state of both copies of the hard deadline after a step that does or does not renew it. */
  ghost predicate DeadlineMoves(t: Turn, s: Loop, renews: bool, step: Step) {
    match step
    case Continue(n) =>
      && WithinBudget(t, n)
      && s.client.now <= n.client.now
      && n.hardDeadline == (if renews then n.client.now + t.maxDuration else s.hardDeadline)
      && (Mirrored(s) ==> Mirrored(n))
    case Exit(c, _) => !renews && s.client.now <= c.now && c.hardDeadline == s.client.hardDeadline
  }

  predicate AnswerRenews(p: Option<Pending>, msg: Json) {
    && p.Some?
    && AnswersId(msg, p.value.id)
    && Get(msg, "error").None?
    && (p.value.transport.Goose?
        || (p.value.transport.Extension? && GetStr(At(msg, "result"), "outcome") == Some("injected")))
  }

  lemma FrameDeadline(t: Turn, s: Loop, msg: Json, hint: Hint, work: nat, fate: Fate)
    requires WithinBudget(t, s)
    ensures DeadlineMoves(t, s, AnswerRenews(s.pending, msg), OnFrame(t, s, msg, hint, work, fate))
  {
    hide OnMethod, StrictVerdict;
  }

  lemma SteerDeadline(t: Turn, s: Loop, r: SteerRequest, fate: Fate)
    requires WithinBudget(t, s)
    ensures DeadlineMoves(t, s, false, OnSteer(t, s, r, fate))
  {
    hide SelectTransport;
  }

  /** A pass moves the hard deadline exactly when it renews the budget, and then to the full budget from now. */
  lemma PassDeadline(t: Turn, s: Loop, i: Input)
    requires WithinBudget(t, s)
    ensures DeadlineMoves(t, s, Renews(s, i), Pass(t, s, i))
  {
    hide OnFrame, OnSteer, Expired, TimeoutError;
    var woken := s.(client := Tick(Tick(s.client, i.before), i.wait));
    match i.arm
    case Frame(msg, hint) => FrameDeadline(t, woken, msg, hint, i.work, i.fate);
    case Steer(r) => SteerDeadline(t, woken, r, i.fate);
    case _ =>
  }

  ghost predicate RenewsDuring(t: Turn, s: Loop, script: seq<Input>)
    decreases |script|
  {
    script != [] &&
    (Renews(s, script[0]) ||
     match Pass(t, s, script[0])
     case Continue(n) => RenewsDuring(t, n, script[1..])
     case Exit(_, _) => false)
  }

  /**
   Over every script the hard deadline never exceeds the clock plus the budget, never moves back, stays put
   unless something renews it, and is the value kept on the client.
   */
  lemma {:induction false} HardDeadlineOverRun(t: Turn, s: Loop, script: seq<Input>)
    requires WithinBudget(t, s)
    ensures s.client.now <= Finish(Run(t, s, script)).0.now
    ensures Run(t, s, script).Continue? ==>
      var n := Run(t, s, script).loop;
      && s.hardDeadline <= n.hardDeadline && WithinBudget(t, n)
      && (!RenewsDuring(t, s, script) ==> n.hardDeadline == s.hardDeadline)
    ensures Mirrored(s) ==>
      var c := Finish(Run(t, s, script)).0;
      && c.hardDeadline.Some?
      && s.hardDeadline <= c.hardDeadline.value <= c.now + t.maxDuration
      && (!RenewsDuring(t, s, script) ==> c.hardDeadline.value == s.hardDeadline)
      && (Run(t, s, script).Continue? ==> Mirrored(Run(t, s, script).loop))
    decreases |script|
  {
    hide Pass, Renews;
    if script != [] {
      PassDeadline(t, s, script[0]);
      var step := Pass(t, s, script[0]);
      if step.Continue? {
        HardDeadlineOverRun(t, step.loop, script[1..]);
      }
    }
  }

  lemma {:induction false} RunSplit(t: Turn, s: Loop, script: seq<Input>, k: nat)
    requires k <= |script|
    ensures Run(t, s, script) ==
      match Run(t, s, script[..k])
      case Exit(c, o) => Exit(c, o)
      case Continue(n) => Run(t, n, script[k..])
    decreases k
  {
    hide Pass;
    if k > 0 {
      assert script[..k][1..] == script[1..][..k - 1];
      assert script[1..][k - 1..] == script[k..];
      var step := Pass(t, s, script[0]);
      if step.Continue? {
        RunSplit(t, step.loop, script[1..], k - 1);
      }
    } else {
      assert script[0..] == script;
    }
  }

  /** With no question open, a turn whose clock has reached a deadline ends in the very next pass, whatever that
      pass finds ready; and the error names the deadline that comes first. */
  lemma LateLoopReturns(t: Turn, s: Loop, script: seq<Input>, k: nat, n: Loop)
    requires k < |script| && Run(t, s, script[..k]) == Continue(n)
    requires n.question.None? && (n.client.now >= n.hardDeadline || n.client.now >= SilenceDeadline(n))
    ensures Run(t, s, script[..k + 1]).Exit? && Run(t, s, script) == Run(t, s, script[..k + 1])
    ensures
      var o := Run(t, s, script).outcome;
      && o.Error?
      && (SilenceDeadline(n) < n.hardDeadline <==> o.error.IdleTimeout?)
      && (n.hardDeadline <= SilenceDeadline(n) <==> o.error.HardTimeout?)
  {
    hide Select;
    RunSplit(t, s, script, k);
    RunSplit(t, s, script[..k + 1], k);
    assert script[..k + 1][..k] == script[..k];
    assert script[..k + 1][k..] == [script[k]];
  }

  /** During a pass the clock reaches the hard deadline in force, and the pass neither renews it nor leaves a question open. */
  ghost predicate Overruns(t: Turn, s: Loop, i: Input) {
    && Pass(t, s, i).Continue?
    && Pass(t, s, i).loop.question.None? && !Renews(s, i) && Pass(t, s, i).loop.client.now >= s.hardDeadline
  }

  /** The step during which the clock reaches the hard deadline is the last to complete. */
  lemma OverrunIsLast(t: Turn, s: Loop, i: Input, next: Input)
    requires WithinBudget(t, s) && Overruns(t, s, i)
    ensures
      var step := Pass(t, Pass(t, s, i).loop, next);
      step.Exit? && step.outcome.Error? && (step.outcome.error.HardTimeout? || step.outcome.error.IdleTimeout?)
  {
    hide Select, Renews;
    PassDeadline(t, s, i);
  }

  /**
   No starvation: if the clock reaches the hard deadline during a pass, at any point of any run, and that pass neither
   renews it nor leaves a question open, then it is the last to complete. The next one returns, whatever is ready, with
   the error that names the earlier deadline, and the run is over.
   */
  lemma NoStarvation(t: Turn, s: Loop, script: seq<Input>, k: nat, n: Loop)
    requires WithinBudget(t, s) && k + 1 < |script| && Run(t, s, script[..k]) == Continue(n) && Overruns(t, n, script[k])
    ensures
      var m := Pass(t, n, script[k]).loop;
      && m.hardDeadline == n.hardDeadline
      && Run(t, s, script[..k + 1]) == Continue(m)
      && Run(t, s, script[..k + 2]).Exit? && Run(t, s, script) == Run(t, s, script[..k + 2])
      && Run(t, s, script).outcome.Error?
      && (SilenceDeadline(m) < n.hardDeadline <==> Run(t, s, script).outcome.error.IdleTimeout?)
      && (n.hardDeadline <= SilenceDeadline(m) <==> Run(t, s, script).outcome.error.HardTimeout?)
  {
    hide Pass, Renews, SilenceDeadline;
    HardDeadlineOverRun(t, s, script[..k]);
    PassDeadline(t, n, script[k]);
    RunSplit(t, s, script[..k + 1], k);
    assert script[..k + 1][..k] == script[..k] && script[..k + 1][k..] == [script[k]] && [script[k]][1..] == [];
    var m := Pass(t, n, script[k]).loop;
    assert Run(t, n, [script[k]]) == Run(t, m, []);
    LateLoopReturns(t, s, script, k + 1, m);
  }

  /** How many passes of a run complete although the clock has reached the deadline by their end. */
  ghost function Overrun(t: Turn, s: Loop, script: seq<Input>): nat
    decreases |script|
  {
    if script == [] then 0
    else match Pass(t, s, script[0])
      case Exit(_, _) => 0
      case Continue(n) => (if Overruns(t, s, script[0]) then 1 else 0) + Overrun(t, n, script[1..])
  }

  /** Over every script, however many frames are ready, at most one pass completes past the hard deadline. */
  lemma {:induction false} OverrunsAtMostOnce(t: Turn, s: Loop, script: seq<Input>)
    requires WithinBudget(t, s)
    ensures Overrun(t, s, script) <= 1
    decreases |script|
  {
    hide Pass, Renews;
    if script != [] {
      var step := Pass(t, s, script[0]);
      if step.Continue? {
        PassDeadline(t, s, script[0]);
        if Overruns(t, s, script[0]) && |script| > 1 {
          OverrunIsLast(t, s, script[0], script[1]);
          assert Overrun(t, step.loop, script[1..]) == 0;
        } else {
          OverrunsAtMostOnce(t, step.loop, script[1..]);
        }
      }
    }
  }

  ghost predicate NamesDeadline(s: Loop, step: Step) {
    step.Exit? && step.outcome.Error? ==>
      && (step.outcome.error.HardTimeout? ==>
            && s.question.None? && step.client.now >= s.hardDeadline
            && (s.hardDeadline <= s.idleDeadline || s.hardDeadline <= s.toolDeadline))
      && (step.outcome.error.IdleTimeout? ==>
            && s.question.None? && step.client.now >= s.idleDeadline && step.client.now >= s.toolDeadline
            && s.idleDeadline < s.hardDeadline && s.toolDeadline < s.hardDeadline)
  }

  lemma PassTimeouts(t: Turn, s: Loop, i: Input)
    ensures NamesDeadline(s, Pass(t, s, i))
  {
    hide OnMethod, JudgeAnswer, SelectTransport;
  }

  /** A timeout is never early: the deadline it names had passed, no question was open, and the other one was not earlier. */
  lemma TimeoutsAreReal(t: Turn, s: Loop, script: seq<Input>) returns (k: nat, last: Loop)
    requires Run(t, s, script).Exit?
    ensures k < |script| && Run(t, s, script[..k]) == Continue(last)
    ensures NamesDeadline(last, Run(t, s, script))
  {
    hide Run;
    k, last := ExitSettlesPending(t, s, script);
    PassTimeouts(t, last, script[k]);
  }

  /** While a question is open no deadline fires, however late it is. */
  lemma OpenQuestionHoldsClocks(t: Turn, s: Loop, i: Input)
    requires s.question.Some?
    ensures Pass(t, s, i).Exit? && Pass(t, s, i).outcome.Error? ==>
      !Pass(t, s, i).outcome.error.IdleTimeout? && !Pass(t, s, i).outcome.error.HardTimeout?
  {
    hide Pass;
    PassTimeouts(t, s, i);
  }

  /** A hard timeout never comes before the deadline a turn started with. */
  lemma HardTimeoutIsNeverEarly(t: Turn, s: Loop, script: seq<Input>)
    requires WithinBudget(t, s)
    ensures
      var (c, o) := Finish(Run(t, s, script));
      o.Error? && o.error.HardTimeout? ==> s.hardDeadline <= c.now
  {
    hide Pass, WithinBudget, SilenceDeadline;
    var step := Run(t, s, script);
    if step.Exit? {
      var k, last := TimeoutsAreReal(t, s, script);
      HardDeadlineOverRun(t, s, script[..k]);
    }
  }
}
