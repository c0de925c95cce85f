/** Where the settlement of a steer request comes from, in the run that produced it. */
module TurnProvenance {
  import opened Options
  import opened JsonValue
  import opened TurnLoop
  import opened TurnSettlement
  import opened TurnDeadlines
  import opened TurnRouting

  /** The settlement that a pass gives a request it takes but does not keep in flight. */
  ghost predicate SettledOnTaking(t: Turn, s: Loop, i: Input, st: Settlement) {
    && Takes(s, i)
    && match SelectTransport(t.session, s.client, i.arm.request)
       case None => st == Answered(Failed(RefusalOf(s.client, i.arm.request)))
       case Some(_) => (i.fate.Broken? && st == Answered(Failed(TransportFailed))) || (i.fate.Abandon? && st == SenderDropped)
  }

  /** The settlement that a pass gives the request in flight: its answer, or that of the exit. */
  ghost predicate SettledInFlight(t: Turn, s: Loop, i: Input, st: Settlement) {
    && s.pending.Some?
    && (|| (ReachesSelect(s, i) && i.arm.Frame? && AnswersId(i.arm.msg, s.pending.value.id)
            && st == Answered(JudgeAnswer(t, s.pending.value, i.arm.msg).ack))
        || (Pass(t, s, i).Exit? && st == ExitSettlement(Pass(t, s, i).outcome)))
  }

  /** The log after a pass: unchanged, or one entry longer, with the reason for the entry. */
  ghost predicate EntryExplained(t: Turn, s: Loop, i: Input, log: seq<(nat, Settlement)>) {
    log == s.client.settled ||
    (&& |log| == |s.client.settled| + 1 && s.client.settled <= log
     && var (k, st) := log[|s.client.settled|];
        || (Takes(s, i) && k == i.arm.request.ticket && SettledOnTaking(t, s, i, st))
        || (s.pending.Some? && k == s.pending.value.request.ticket && SettledInFlight(t, s, i, st)))
  }

  lemma FrameEntry(t: Turn, s: Loop, msg: Json, hint: Hint, work: nat, fate: Fate)
    ensures
      var step := OnFrame(t, s, msg, hint, work, fate);
      var log := ClientAfter(step).settled;
      log == s.client.settled ||
      (s.pending.Some? &&
       (|| (step.Continue? && AnswersId(msg, s.pending.value.id)
            && log == s.client.settled + [(s.pending.value.request.ticket, Answered(JudgeAnswer(t, s.pending.value, msg).ack))])
        || (step.Exit? && log == s.client.settled + [(s.pending.value.request.ticket, ExitSettlement(step.outcome))])))
  {
    hide OnMethod, OnSteerAnswer, JudgeAnswer, PromptOutcome, OnlyReplied, AnswersId, LosesSender;
    FrameLog(t, s, msg, hint, work, fate);
    if s.pending.Some? {
      SteerAnswerLog(t, Heard(t, s, hint), s.pending.value, msg, work);
    }
  }

  lemma SteerEntry(t: Turn, s: Loop, r: SteerRequest, fate: Fate)
    requires s.pending.None?
    ensures
      var step := OnSteer(t, s, r, fate);
      var selected := SelectTransport(t.session, s.client, r);
      && ClientAfter(step).settled ==
         (if selected.None? then s.client.settled + [(r.ticket, Answered(Failed(RefusalOf(s.client, r))))]
          else if fate.Delivered? then s.client.settled
          else if fate.Broken? then s.client.settled + [(r.ticket, Answered(Failed(TransportFailed)))]
          else s.client.settled + [(r.ticket, SenderDropped)])
      && ClientAfter(step).dispatched ==
         (if selected.Some? && fate.Delivered? then s.client.dispatched + {r.ticket} else s.client.dispatched)
    ensures
      var step := OnSteer(t, s, r, fate);
      var selected := SelectTransport(t.session, s.client, r);
      step.Continue? ==>
        step.loop.pending == if selected.Some? && fate.Delivered?
          then Some(Pending(s.client.nextId, selected.value, if selected.value.Strict? then r.target else None, r)) else None
  {
    hide SelectTransport;
  }

  lemma OtherEntry(t: Turn, s: Loop, i: Input)
    requires !i.arm.Frame? && !i.arm.Steer?
    ensures
      var step := Select(t, s, i);
      if step.Exit? then step.client.settled == Settle(s.client, s.pending, ExitSettlement(step.outcome)).settled
      else step.loop.client.settled == s.client.settled && step.loop.client.dispatched == s.client.dispatched
    ensures ClientAfter(Select(t, s, i)).dispatched == s.client.dispatched
  {
    hide Expired, IdleFirst, SilenceDeadline, OnAnswer;
    if s.question.Some? {
      AnswerEntry(t, s, i.work, i.fate);
    }
  }

  lemma AnswerEntry(t: Turn, s: Loop, work: nat, fate: Fate)
    requires s.question.Some?
    ensures
      var step := OnAnswer(t, s, work, fate);
      if step.Exit? then step.client.settled == Settle(s.client, s.pending, ExitSettlement(step.outcome)).settled
      else step.loop.client.settled == s.client.settled
    ensures ClientAfter(OnAnswer(t, s, work, fate)).dispatched == s.client.dispatched
  {
  }

  lemma FrameKeepsDispatched(t: Turn, s: Loop, msg: Json, hint: Hint, work: nat, fate: Fate)
    ensures ClientAfter(OnFrame(t, s, msg, hint, work, fate)).dispatched == s.client.dispatched
  {
    hide OnMethod, OnSteerAnswer, AnswersId, PromptOutcome, JudgeAnswer;
    if s.pending.Some? {
      SteerAnswerLog(t, Heard(t, s, hint), s.pending.value, msg, work);
    }
  }

  lemma SelectEntry(t: Turn, s: Loop, i: Input)
    ensures
      var step := Select(t, s, i);
      var log := ClientAfter(step).settled;
      log == s.client.settled ||
      (|log| == |s.client.settled| + 1 && s.client.settled <= log &&
       var (k, st) := log[|s.client.settled|];
       || (i.arm.Steer? && TakesSteer(s) && k == i.arm.request.ticket
           && match SelectTransport(t.session, s.client, i.arm.request)
              case None => st == Answered(Failed(RefusalOf(s.client, i.arm.request)))
              case Some(_) => (i.fate.Broken? && st == Answered(Failed(TransportFailed))) || (i.fate.Abandon? && st == SenderDropped))
       || (s.pending.Some? && k == s.pending.value.request.ticket
           && (|| (i.arm.Frame? && AnswersId(i.arm.msg, s.pending.value.id) && st == Answered(JudgeAnswer(t, s.pending.value, i.arm.msg).ack))
               || (step.Exit? && st == ExitSettlement(step.outcome)))))
  {
    hide OnFrame, OnSteer, OnAnswer, JudgeAnswer, Expired, SelectTransport, RefusalOf, ExitSettlement, AnswersId;
    match i.arm
    case Frame(msg, hint) => FrameEntry(t, s, msg, hint, i.work, i.fate);
    case Steer(r) =>
      if s.pending.None? { SteerEntry(t, s, r, i.fate); }
    case _ => OtherEntry(t, s, i);
  }

  /** Each pass settles at most one request, and for one of two reasons. */
  lemma PassEntry(t: Turn, s: Loop, i: Input)
    ensures EntryExplained(t, s, i, ClientAfter(Pass(t, s, i)).settled)
  {
    hide Select, JudgeAnswer, Expired, SelectTransport, RefusalOf, AnswersId;
    var woken := s.(client := Tick(Tick(s.client, i.before), i.wait));
    SelectionIgnoresClock(t, s.client, woken.client, i);
    SelectEntry(t, woken, i);
  }

  lemma SelectionIgnoresClock(t: Turn, a: Client, b: Client, i: Input)
    requires b == a.(now := b.now)
    ensures i.arm.Steer? ==> SelectTransport(t.session, a, i.arm.request) == SelectTransport(t.session, b, i.arm.request)
    ensures i.arm.Steer? ==> RefusalOf(a, i.arm.request) == RefusalOf(b, i.arm.request)
  {
  }

  /** A pass that puts a request in flight took it, could send it, and wrote it under the next identifier. */
  ghost predicate PutInFlight(t: Turn, s: Loop, i: Input, p: Pending) {
    && Takes(s, i) && i.fate.Delivered? && i.arm.request == p.request
    && SelectTransport(t.session, s.client, p.request) == Some(p.transport)
    && p.id == s.client.nextId && p.target == (if p.transport.Strict? then p.request.target else None)
  }

  lemma PassTakes(t: Turn, s: Loop, i: Input)
    requires s.pending.None?
    ensures Pass(t, s, i).Continue? && Pass(t, s, i).loop.pending.Some? ==>
      PutInFlight(t, s, i, Pass(t, s, i).loop.pending.value)
    ensures ClientAfter(Pass(t, s, i)).dispatched != s.client.dispatched ==>
      Takes(s, i) && i.fate.Delivered? && SelectTransport(t.session, s.client, i.arm.request).Some?
      && ClientAfter(Pass(t, s, i)).dispatched == s.client.dispatched + {i.arm.request.ticket}
  {
    hide OnSteer, OnMethod, Expired, SelectTransport;
    var woken := s.(client := Tick(Tick(s.client, i.before), i.wait));
    SelectionIgnoresClock(t, s.client, woken.client, i);
    if i.arm.Steer? {
      SteerEntry(t, woken, i.arm.request, i.fate);
    }
  }

  lemma PassKeepsDispatched(t: Turn, s: Loop, i: Input)
    requires s.pending.Some?
    ensures ClientAfter(Pass(t, s, i)).dispatched == s.client.dispatched
  {
    hide Select, Expired, TimeoutError;
    var woken := s.(client := Tick(Tick(s.client, i.before), i.wait));
    SelectKeepsDispatched(t, woken, i);
  }

  lemma SelectKeepsDispatched(t: Turn, s: Loop, i: Input)
    requires s.pending.Some?
    ensures ClientAfter(Select(t, s, i)).dispatched == s.client.dispatched
  {
    hide OnFrame, OnSteer, OnAnswer, Expired, TimeoutError;
    match i.arm
    case Frame(msg, hint) => FrameKeepsDispatched(t, s, msg, hint, i.work, i.fate);
    case Steer(_) =>
    case _ => OtherEntry(t, s, i);
  }

  /** A prefix of a run that is still going. */
  ghost predicate ReachedAt(t: Turn, s: Loop, script: seq<Input>, k: nat, n: Loop) {
    k <= |script| && Run(t, s, script[..k]) == Continue(n)
  }

  lemma NextReached(t: Turn, s: Loop, script: seq<Input>, k: nat, n: Loop)
    requires k < |script| && ReachedAt(t, s, script, k, n)
    ensures
      match Pass(t, n, script[k])
      case Continue(m) => ReachedAt(t, s, script, k + 1, m)
      case Exit(c, o) => Run(t, s, script[..k + 1]) == Exit(c, o) && Run(t, s, script) == Exit(c, o)
  {
    hide Pass;
    RunSplit(t, s, script, k + 1);
    RunSplit(t, s, script[..k + 1], k);
    assert script[..k + 1][..k] == script[..k];
    assert script[..k + 1][k..] == [script[k]];
    SingleStep(t, n, script[k]);
  }

  lemma SingleStep(t: Turn, s: Loop, i: Input)
    ensures Run(t, s, [i]) == Pass(t, s, i)
  {
    hide Pass;
    assert [i][1..] == [];
    if Pass(t, s, i).Continue? {
      assert Run(t, Pass(t, s, i).loop, []) == Pass(t, s, i);
    }
  }

  lemma PreviousReached(t: Turn, s: Loop, script: seq<Input>, k: nat, n: Loop) returns (p: Loop)
    requires 0 < k && ReachedAt(t, s, script, k, n)
    ensures ReachedAt(t, s, script, k - 1, p) && Pass(t, p, script[k - 1]) == Continue(n)
  {
    hide Pass;
    RunSplit(t, s, script[..k], k - 1);
    assert script[..k][..k - 1] == script[..k - 1];
    assert script[..k][k - 1..] == [script[k - 1]];
    p := Run(t, s, script[..k - 1]).loop;
    SingleStep(t, p, script[k - 1]);
  }

  /** The steer in flight at any point was put there by an earlier pass. */
  lemma {:induction false} PendingOrigin(t: Turn, s: Loop, script: seq<Input>, j: nat, a: Loop) returns (i: nat, w: Loop)
    requires s.pending.None? && ReachedAt(t, s, script, j, a) && a.pending.Some?
    ensures i < j && ReachedAt(t, s, script, i, w) && PutInFlight(t, w, script[i], a.pending.value)
    decreases j
  {
    hide Pass, PutInFlight;
    var p := PreviousReached(t, s, script, j, a);
    if p.pending.None? {
      PassTakes(t, p, script[j - 1]);
      i, w := j - 1, p;
    } else {
      SteerAnswerIsItsOwn(t, p, script[j - 1]);
      i, w := PendingOrigin(t, s, script, j - 1, p);
    }
  }

  /** An entry of the final log was there at the start, was added by one pass, or is the steer that the dropped turn let go. */
  lemma {:induction false} EntryOrigin(t: Turn, s: Loop, script: seq<Input>, k: nat, st: Settlement) returns (j: nat, a: Loop)
    requires (k, st) in Finish(Run(t, s, script)).0.settled && (k, st) !in s.client.settled
    ensures ReachedAt(t, s, script, j, a)
    ensures
      if j < |script| then
        || (Takes(a, script[j]) && k == script[j].arm.request.ticket && SettledOnTaking(t, a, script[j], st))
        || (a.pending.Some? && k == a.pending.value.request.ticket && SettledInFlight(t, a, script[j], st))
      else
        a.pending.Some? && k == a.pending.value.request.ticket && st == SenderDropped
    decreases |script|
  {
    hide Pass, SettledOnTaking, SettledInFlight, Takes;
    if script == [] {
      j, a := 0, s;
    } else {
      PassEntry(t, s, script[0]);
      var step := Pass(t, s, script[0]);
      if (k, st) in ClientAfter(step).settled {
        assert script[..0] == [];
        j, a := 0, s;
      } else {
        j, a := EntryOrigin(t, step.loop, script[1..], k, st);
        assert script[..j + 1][1..] == script[1..][..j];
        j := j + 1;
      }
    }
  }

  /** A request marked as dispatched was taken and written by one pass. */
  lemma {:induction false} DispatchOrigin(t: Turn, s: Loop, script: seq<Input>, k: nat) returns (i: nat, w: Loop)
    requires k in Finish(Run(t, s, script)).0.dispatched && k !in s.client.dispatched
    ensures i < |script| && ReachedAt(t, s, script, i, w)
    ensures Takes(w, script[i]) && script[i].arm.request.ticket == k && script[i].fate.Delivered?
    ensures SelectTransport(t.session, w.client, script[i].arm.request).Some?
    decreases |script|
  {
    hide Pass, Takes, SelectTransport;
    var step := Pass(t, s, script[0]);
    if k in ClientAfter(step).dispatched {
      if s.pending.Some? { PassKeepsDispatched(t, s, script[0]); } else { PassTakes(t, s, script[0]); }
      assert script[..0] == [];
      i, w := 0, s;
    } else {
      i, w := DispatchOrigin(t, step.loop, script[1..], k);
      assert script[..i + 1][1..] == script[1..][..i];
      i := i + 1;
    }
  }
}
