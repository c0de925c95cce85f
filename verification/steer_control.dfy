/** Thread-exact steering: validating a frame, classifying its answer, and what a reported status proves. */
module SteerControl {
  import opened Options
  import opened JsonValue
  import opened TurnLoop
  import opened TurnSettlement
  import TurnDeadlines
  import opened TurnProvenance

  // ---------- frames ----------

  const MAX_STEER_PROMPT_BYTES := 16 * 1024

  function Utf8Width(c: char): nat {
    var n := c as int;
    if n < 0x80 then 1 else if n < 0x800 then 2 else if n < 0x10000 then 3 else 4
  }

  function Utf8Length(s: string): nat {
    if s == [] then 0 else Utf8Width(s[0]) + Utf8Length(s[1..])
  }

  /** A character in UTF-8: one byte, or a leading byte and continuation bytes of six bits each. */
  function Utf8(c: char): seq<nat> {
    var n := c as nat;
    if n < 0x80 then [n]
    else if n < 0x800 then [0xC0 + n / 64, 0x80 + n % 64]
    else if n < 0x10000 then [0xE0 + n / 4096, 0x80 + n / 64 % 64, 0x80 + n % 64]
    else [0xF0 + n / 262144, 0x80 + n / 4096 % 64, 0x80 + n / 64 % 64, 0x80 + n % 64]
  }

  function Utf8All(s: string): seq<nat> {
    if s == [] then [] else Utf8(s[0]) + Utf8All(s[1..])
  }

  /** The length of a prompt is counted in the bytes of its encoding. */
  lemma {:induction false} Utf8LengthIsBytes(s: string)
    ensures Utf8Length(s) == |Utf8All(s)|
    decreases |s|
  {
    if s != [] {
      Utf8LengthIsBytes(s[1..]);
    }
  }

  /** Identifiers are read and printed by the UUID library: a parser and a printer. */
  datatype UuidCodec = UuidCodec(parse: string -> Option<Uuid>, show: Uuid -> string)

  function UuidField(u: UuidCodec, payload: Json, key: string): Option<Uuid> {
    match GetStr(payload, key)
    case Some(text) => u.parse(text)
    case None => None
  }

  function TextField(payload: Json, key: string): Option<string> {
    match GetStr(payload, key)
    case Some(text) => if IsBlank(text) then None else Some(text)
    case None => None
  }

  datatype SteerFrame = SteerFrame(channel: Uuid, conversation: Uuid, session: string, turn: string, request: Uuid, prompt: string)

  /** The first missing field, in the order they are checked, names the rejection. */
  function ParseSteer(u: UuidCodec, payload: Json): Result<SteerFrame, string> {
    var channel := UuidField(u, payload, "channelId");
    var conversation := UuidField(u, payload, "conversationId");
    var session := TextField(payload, "sessionId");
    var turn := TextField(payload, "turnId");
    var request := UuidField(u, payload, "requestId");
    var prompt := TextField(payload, "prompt");
    if channel.None? then Err("steer request is missing a valid channelId")
    else if conversation.None? then Err("steer request is missing a valid conversationId")
    else if session.None? then Err("steer request is missing a sessionId")
    else if turn.None? then Err("steer request is missing a turnId")
    else if request.None? then Err("steer request is missing a valid requestId")
    else if prompt.None? then Err("steer request is missing a prompt")
    else if Utf8Length(prompt.value) > MAX_STEER_PROMPT_BYTES then Err("steer prompt exceeds the 16 KiB limit")
    else Ok(SteerFrame(channel.value, conversation.value, session.value, turn.value, request.value, prompt.value))
  }

  /** A member of the payload under its own name: an identifier, or text that is not blank. */
  ghost predicate Identifies(u: UuidCodec, payload: Json, key: string, v: Uuid) {
    exists text :: Get(payload, key) == Some(Str(text)) && u.parse(text) == Some(v)
  }

  predicate Says(payload: Json, key: string, v: string) {
    Get(payload, key) == Some(Str(v)) && !IsBlank(v)
  }

  lemma FieldsMean(u: UuidCodec, payload: Json, key: string)
    ensures forall v: Uuid :: UuidField(u, payload, key) == Some(v) <==> Identifies(u, payload, key, v)
    ensures forall v :: TextField(payload, key) == Some(v) <==> Says(payload, key, v)
  {
    hide IsBlank;
  }

  /** Each field of a frame is the payload member of its own name, and the prompt fits. */
  ghost predicate Carries(u: UuidCodec, payload: Json, f: SteerFrame) {
    && Identifies(u, payload, "channelId", f.channel) && Identifies(u, payload, "conversationId", f.conversation)
    && Says(payload, "sessionId", f.session) && Says(payload, "turnId", f.turn)
    && Identifies(u, payload, "requestId", f.request) && Says(payload, "prompt", f.prompt)
    && |Utf8All(f.prompt)| <= 16384
  }

  /** A payload is accepted as a frame if and only if it carries exactly that frame. */
  lemma ParsedExactlyWhen(u: UuidCodec, payload: Json, f: SteerFrame)
    ensures ParseSteer(u, payload) == Ok(f) <==> Carries(u, payload, f)
  {
    hide Identifies, Says, UuidField, TextField, Utf8Length, Utf8All;
    Utf8LengthIsBytes(f.prompt);
    FieldsMean(u, payload, "channelId");
    FieldsMean(u, payload, "conversationId");
    FieldsMean(u, payload, "sessionId");
    FieldsMean(u, payload, "turnId");
    FieldsMean(u, payload, "requestId");
    FieldsMean(u, payload, "prompt");
  }

  function RequestFor(u: UuidCodec, f: SteerFrame, ticket: nat): SteerRequest {
    SteerRequest(ticket, [f.prompt], Some(StrictTarget(f.session, f.turn, u.show(f.request))))
  }

  // ---------- statuses ----------

  /** The status reported for the way a reply channel ended; only the marker tells an unsent request from a lost answer. */
  function Classify(st: Settlement, dispatched: bool): string {
    match st
    case Answered(Success(_)) => "appended"
    case Answered(Failed(error)) =>
      (match error
       case StrictOutcome(outcome) => if IsTerminalOutcome(outcome) then outcome else "unconfirmed"
       case StrictTargetMismatch => "stale_target"
       case PromptCompleted => "stale_target"
       case Busy => "busy"
       case StrictUnsupported => "rejected"
       case ExpectedRunIdMissing => "rejected"
       case StrictResponseMismatch => "unconfirmed"
       case OutcomeRejected => "unconfirmed"
       case TransportFailed => "unconfirmed"
       case AgentRefused(_) => "unconfirmed")
    case Answered(PromptCompletedNeutral) => if dispatched then "unconfirmed" else "stale_target"
    case SenderDropped => if dispatched then "unconfirmed" else "stale_target"
  }

  /** A reply channel is owned by one request: no ticket is offered twice. */
  ghost predicate DistinctTickets(script: seq<Input>) {
    forall i, j :: 0 <= i < j < |script| && script[i].arm.Steer? && script[j].arm.Steer?
      ==> script[i].arm.request.ticket != script[j].arm.request.ticket
  }

  /** The state before a turn that has not yet met a request. */
  ghost predicate Unmet(s: Loop, r: SteerRequest) {
    && s.pending.None? && r.ticket !in s.client.dispatched
    && forall st :: (r.ticket, st) !in s.client.settled
  }

  /** Pass `i` of a run took the request and wrote it while session, turn and capability all matched. */
  ghost predicate WrittenMatching(t: Turn, s: Loop, script: seq<Input>, r: SteerRequest, i: nat, w: Loop) {
    && r.target.Some? && i < |script| && ReachedAt(t, s, script, i, w)
    && Takes(w, script[i]) && script[i].arm.request == r && script[i].fate.Delivered?
    && w.client.strictSteering && r.target.value.session == t.session && w.client.turn == Some(r.target.value.turn)
  }

  /** A frame that answers an identifier and echoes both identities of a request, with an outcome. */
  ghost predicate EchoesOutcome(msg: Json, id: nat, r: SteerRequest, outcome: string) {
    && r.target.Some? && AnswersId(msg, id) && Get(msg, "error").None?
    && GetStr(At(msg, "result"), "requestId") == Some(r.target.value.request)
    && GetStr(At(msg, "result"), "turnId") == Some(r.target.value.turn)
    && GetStr(At(msg, "result"), "outcome") == Some(outcome)
  }

  ghost predicate AnsweredWith(t: Turn, s: Loop, script: seq<Input>, r: SteerRequest, id: nat, outcome: string, j: nat, a: Loop) {
    && j < |script| && ReachedAt(t, s, script, j, a)
    && a.pending.Some? && a.pending.value.request == r && a.pending.value.id == id
    && script[j].arm.Frame? && EchoesOutcome(script[j].arm.msg, id, r, outcome)
  }

  lemma StrictSuccessEchoes(t: Turn, p: Pending, msg: Json)
    requires p.transport.Strict? && AnswersId(msg, p.id) && p.target == p.request.target
    ensures JudgeAnswer(t, p, msg).ack.Success? ==> EchoesOutcome(msg, p.id, p.request, "appended")
    ensures JudgeAnswer(t, p, msg).ack == Failed(StrictOutcome("stale_target")) ==> EchoesOutcome(msg, p.id, p.request, "stale_target")
    ensures JudgeAnswer(t, p, msg).ack != Failed(StrictTargetMismatch) && JudgeAnswer(t, p, msg).ack != Failed(PromptCompleted)
  {
  }

  lemma OriginOfStrict(t: Turn, s: Loop, script: seq<Input>, r: SteerRequest, j: nat, a: Loop) returns (i: nat, w: Loop)
    requires s.pending.None? && r.target.Some? && ReachedAt(t, s, script, j, a)
    requires a.pending.Some? && a.pending.value.request.ticket == r.ticket
    requires forall i :: 0 <= i < |script| && script[i].arm.Steer? && script[i].arm.request.ticket == r.ticket ==> script[i].arm.request == r
    ensures i < j && WrittenMatching(t, s, script, r, i, w)
    ensures a.pending == Some(Pending(w.client.nextId, Strict, r.target, r))
  {
    hide Run, Pass;
    i, w := PendingOrigin(t, s, script, j, a);
  }

  /**
   `appended` is honest: the request was written while session, turn and capability all matched, and a later
   response under that same fresh identifier echoed both identities with the outcome `appended`.
   */
  lemma AppendedIsHonest(t: Turn, s: Loop, script: seq<Input>, r: SteerRequest, st: Settlement)
    returns (i: nat, w: Loop, j: nat, a: Loop)
    requires Unmet(s, r) && DistinctTickets(script) && r.target.Some?
    requires exists i :: 0 <= i < |script| && script[i].arm == Steer(r)
    requires (r.ticket, st) in Finish(Run(t, s, script)).0.settled
    requires Classify(st, r.ticket in Finish(Run(t, s, script)).0.dispatched) == "appended"
    ensures i < j && WrittenMatching(t, s, script, r, i, w)
    ensures AnsweredWith(t, s, script, r, w.client.nextId, "appended", j, a)
  {
    hide Run, Pass, Takes, JudgeAnswer;
    j, a := EntryOrigin(t, s, script, r.ticket, st);
    assert st.Answered? && st.ack.Success?;
    i, w := OriginOfStrict(t, s, script, r, j, a);
    StrictSuccessEchoes(t, a.pending.value, script[j].arm.msg);
  }

  /** The refusals and losses that settle a request while taking it leave it undispatched. */
  lemma SettledOnTakingIsUnsent(t: Turn, s: Loop, script: seq<Input>, r: SteerRequest, j: nat, a: Loop, st: Settlement)
    requires Unmet(s, r) && DistinctTickets(script) && j < |script| && ReachedAt(t, s, script, j, a)
    requires Takes(a, script[j]) && script[j].arm.request.ticket == r.ticket && SettledOnTaking(t, a, script[j], st)
    ensures r.ticket !in Finish(Run(t, s, script)).0.dispatched
  {
    hide Run, Pass;
    if r.ticket in Finish(Run(t, s, script)).0.dispatched {
      var i, w := DispatchOrigin(t, s, script, r.ticket);
    }
  }

  /** `stale_target` is honest: the request was never written, or the adapter itself answered `stale_target`. */
  lemma StaleTargetIsHonest(t: Turn, s: Loop, script: seq<Input>, r: SteerRequest, st: Settlement)
    requires Unmet(s, r) && DistinctTickets(script) && r.target.Some?
    requires exists i :: 0 <= i < |script| && script[i].arm == Steer(r)
    requires (r.ticket, st) in Finish(Run(t, s, script)).0.settled
    requires Classify(st, r.ticket in Finish(Run(t, s, script)).0.dispatched) == "stale_target"
    ensures
      || r.ticket !in Finish(Run(t, s, script)).0.dispatched
      || exists i, w, j, a :: i < j && WrittenMatching(t, s, script, r, i, w)
           && AnsweredWith(t, s, script, r, w.client.nextId, "stale_target", j, a)
  {
    hide Run, Pass, JudgeAnswer;
    var j, a := EntryOrigin(t, s, script, r.ticket, st);
    if j < |script| && Takes(a, script[j]) && script[j].arm.request.ticket == r.ticket && SettledOnTaking(t, a, script[j], st) {
      SettledOnTakingIsUnsent(t, s, script, r, j, a, st);
    } else if r.ticket in Finish(Run(t, s, script)).0.dispatched {
      assert st.Answered? && st.ack.Failed?;
      assert SettledInFlight(t, a, script[j], st) && script[j].arm.Frame?;
      var i, w := OriginOfStrict(t, s, script, r, j, a);
      StrictSuccessEchoes(t, a.pending.value, script[j].arm.msg);
      assert AnsweredWith(t, s, script, r, w.client.nextId, "stale_target", j, a);
    }
  }

  /** A request never written is never reported as applied, busy or expired. */
  lemma UnwrittenIsNeverApplied(t: Turn, s: Loop, script: seq<Input>, r: SteerRequest, st: Settlement)
    requires Unmet(s, r) && DistinctTickets(script) && r.target.Some?
    requires exists i :: 0 <= i < |script| && script[i].arm == Steer(r)
    requires (r.ticket, st) in Finish(Run(t, s, script)).0.settled && r.ticket !in Finish(Run(t, s, script)).0.dispatched
    ensures Classify(st, false) in {"stale_target", "rejected", "unconfirmed"}
  {
    hide Run, Pass, JudgeAnswer;
    var j, a := EntryOrigin(t, s, script, r.ticket, st);
    if !(j < |script| && Takes(a, script[j]) && script[j].arm.request.ticket == r.ticket && SettledOnTaking(t, a, script[j], st)) {
      var i, w := OriginOfStrict(t, s, script, r, j, a);
      WrittenIsDispatched(t, s, script, r, i, w);
    }
  }

  /** A reply channel that ended without an answer. */
  predicate Lost(st: Settlement) {
    st.SenderDropped? || st.ack.PromptCompletedNeutral?
  }

  /** Pass `j` of a run read a frame that answers an identifier. */
  ghost predicate AnswerReached(t: Turn, s: Loop, script: seq<Input>, id: nat, j: nat, a: Loop) {
    && j < |script| && ReachedAt(t, s, script, j, a)
    && ReachesSelect(a, script[j]) && script[j].arm.Frame? && AnswersId(script[j].arm.msg, id)
  }

  /**
   A written request under whose identifier no later pass reads an answer loses it: its channel ends with a dropped
   sender or the neutral ack, and the status is `unconfirmed`. So a written request reported otherwise was answered.
   */
  lemma LostAnswerIsUnconfirmed(t: Turn, s: Loop, script: seq<Input>, r: SteerRequest, st: Settlement, i: nat, w: Loop)
    requires Unmet(s, r) && DistinctTickets(script) && WrittenMatching(t, s, script, r, i, w)
    requires (r.ticket, st) in Finish(Run(t, s, script)).0.settled
    ensures
      || (Lost(st) && Classify(st, r.ticket in Finish(Run(t, s, script)).0.dispatched) == "unconfirmed")
      || (exists j, a :: i < j && AnswerReached(t, s, script, w.client.nextId, j, a))
  {
    hide Run, Pass, JudgeAnswer, ReachesSelect;
    WrittenIsDispatched(t, s, script, r, i, w);
    var j, a := EntryOrigin(t, s, script, r.ticket, st);
    if j < |script| && Takes(a, script[j]) && script[j].arm.request.ticket == r.ticket && SettledOnTaking(t, a, script[j], st) {
      SettledOnTakingIsUnsent(t, s, script, r, j, a, st);
      assert false;
    } else {
      var i', w' := OriginOfStrict(t, s, script, r, j, a);
      TakenByOnePass(script, r, i, i');
      if !Lost(st) {
        assert AnswerReached(t, s, script, w.client.nextId, j, a);
      }
    }
  }

  lemma TakenByOnePass(script: seq<Input>, r: SteerRequest, i: nat, j: nat)
    requires DistinctTickets(script) && i < |script| && j < |script|
    requires script[i].arm == Steer(r) && script[j].arm == Steer(r)
    ensures i == j
  {
  }

  lemma WrittenIsDispatched(t: Turn, s: Loop, script: seq<Input>, r: SteerRequest, i: nat, w: Loop)
    requires WrittenMatching(t, s, script, r, i, w)
    ensures r.ticket in Finish(Run(t, s, script)).0.dispatched
  {
    hide OnFrame, OnAnswer, Expired, Run;
    NextReached(t, s, script, i, w);
    var n := Pass(t, w, script[i]).loop;
    TurnDeadlines.RunSplit(t, s, script, i + 1);
    SettlementsArePermanent(t, n, script[i + 1..]);
  }
}
