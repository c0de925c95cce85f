/**
 What an emitted steer result proves about the history behind it: from the frame that asked, through the channel
 and any number of turns, to the watcher that reported.
 */
module SteerHonesty {
  import opened Options
  import opened JsonValue
  import opened TurnLoop
  import opened TurnSettlement
  import opened TurnRouting
  import opened TurnProvenance
  import TurnWire
  import opened SteerControl
  import opened SteerSystem

  /** A task from its start, and everything that happens to it. */
  datatype History = History(codec: UuidCodec, identity: Identity, isOpen: bool, client: Client, actions: seq<Action>)

  ghost predicate Started(h: History) {
    h.client.settled == [] && h.client.dispatched == {}
  }

  /** The system after the first `n` actions. */
  ghost function At(h: History, n: nat): System
    requires n <= |h.actions|
  {
    ActAll(h.codec, System(Worker(h.identity, h.isOpen, None, Idle(h.client)), 0, {}, []), h.actions[..n])
  }

  lemma {:induction false} ActAllSplits(u: UuidCodec, y: System, actions: seq<Action>, a: Action)
    ensures ActAll(u, y, actions + [a]) == Act(u, ActAll(u, y, actions), a)
    decreases |actions|
  {
    hide Act;
    if actions == [] {
      assert actions + [a] == [a] && [a][1..] == [];
      assert ActAll(u, Act(u, y, a), []) == Act(u, y, a);
    } else {
      assert (actions + [a])[0] == actions[0] && (actions + [a])[1..] == actions[1..] + [a];
      ActAllSplits(u, Act(u, y, actions[0]), actions[1..], a);
    }
  }

  lemma AtNext(h: History, n: nat)
    requires n < |h.actions|
    ensures At(h, n + 1) == Act(h.codec, At(h, n), h.actions[n])
  {
    assert h.actions[..n + 1] == h.actions[..n] + [h.actions[n]];
    ActAllSplits(h.codec, At(h, 0), h.actions[..n], h.actions[n]);
    assert h.actions[..0] == [];
  }

  // ---------- events ----------

  /** The frame numbered `k` arrives and is well formed. */
  ghost predicate SubmittedAt(h: History, l: nat, k: nat, f: SteerFrame) {
    && l < |h.actions| && h.actions[l].Submit? && At(h, l).frames == k
    && Carries(h.codec, h.actions[l].payload, f)
  }

  /** The loop takes the request in the channel and may send it: capability, session and turn all match. */
  ghost predicate MaySend(y: System, a: Action, r: SteerRequest) {
    && a.Advance? && a.input.arm.Steer? && y.worker.phase.Running? && y.worker.slot == Some(r) && r.target.Some?
    && Takes(y.worker.phase.loop, a.input)
    && y.worker.phase.loop.client.strictSteering && r.target.value.session == y.worker.phase.turn.session
    && y.worker.phase.loop.client.turn == Some(r.target.value.turn)
  }

  /** The request is written under a fresh identifier. */
  ghost predicate Writes(y: System, a: Action, r: SteerRequest, id: nat) {
    MaySend(y, a, r) && a.input.fate.Delivered? && id == y.worker.phase.loop.client.nextId
  }

  ghost predicate WrittenAt(h: History, m: nat, r: SteerRequest, id: nat) {
    m < |h.actions| && Writes(At(h, m), h.actions[m], r, id)
  }

  /** The write was tried and failed. */
  ghost predicate BrokenAt(h: History, m: nat, r: SteerRequest) {
    m < |h.actions| && MaySend(At(h, m), h.actions[m], r) && h.actions[m].input.fate.Broken?
  }

  /** A frame that answers an identifier is read by a running turn. */
  ghost predicate AnswerRead(y: System, a: Action, id: nat) {
    && a.Advance? && a.input.arm.Frame? && y.worker.phase.Running?
    && ReachesSelect(y.worker.phase.loop, a.input) && AnswersId(a.input.arm.msg, id)
  }

  ghost predicate AnsweredAt(h: History, j: nat, id: nat) {
    j < |h.actions| && AnswerRead(At(h, j), h.actions[j], id)
  }

  /** The answer read is that of the request in flight, and is judged. */
  ghost predicate Judges(y: System, a: Action, r: SteerRequest, id: nat, st: Settlement) {
    && AnswerRead(y, a, id)
    && y.worker.phase.loop.pending == Some(Pending(id, Strict, r.target, r))
    && st == Answered(JudgeAnswer(y.worker.phase.turn, y.worker.phase.loop.pending.value, a.input.arm.msg).ack)
  }

  ghost predicate JudgedAt(h: History, j: nat, r: SteerRequest, id: nat, st: Settlement) {
    j < |h.actions| && Judges(At(h, j), h.actions[j], r, id, st)
  }

  // ---------- what explains a state ----------

  predicate IsRefusal(st: Settlement) {
    st.Answered? && st.ack.Failed? && (st.ack.error.StrictTargetMismatch? || st.ack.error.StrictUnsupported?)
  }

  ghost predicate SettledFor(h: History, n: nat, k: nat, st: Settlement)
    requires n <= |h.actions|
  {
    || Lost(st)
    || (IsRefusal(st) && k !in ClientOf(At(h, n).worker.phase).dispatched)
    || (st == Answered(Failed(TransportFailed)) && k !in ClientOf(At(h, n).worker.phase).dispatched
        && exists m: nat, r: SteerRequest :: m < n && BrokenAt(h, m, r) && r.ticket == k)
    || (exists m: nat, j: nat, r: SteerRequest, id: nat :: m < j < n && r.ticket == k && WrittenAt(h, m, r, id) && JudgedAt(h, j, r, id, st))
  }

  /** The request in the channel came from a frame. */
  ghost predicate SlotFor(h: History, n: nat, r: SteerRequest) {
    exists l: nat, f: SteerFrame :: l < n && SubmittedAt(h, l, r.ticket, f) && r == RequestFor(h.codec, f, r.ticket)
  }

  /** The request in flight was written. */
  ghost predicate PendingFor(h: History, n: nat, p: Pending) {
    && p == Pending(p.id, Strict, p.request.target, p.request)
    && exists m: nat :: m < n && WrittenAt(h, m, p.request, p.id)
  }

  ghost predicate MarkFor(h: History, n: nat, k: nat) {
    exists m: nat, r: SteerRequest, id: nat :: m < n && WrittenAt(h, m, r, id) && r.ticket == k
  }

  ghost predicate SlotExplained(h: History, n: nat)
    requires n <= |h.actions|
  {
    var y := At(h, n);
    y.worker.slot.Some? ==>
      && SlotFor(h, n, y.worker.slot.value) && y.worker.slot.value.ticket in y.watching
      && y.worker.slot.value.ticket !in ClientOf(y.worker.phase).dispatched
  }

  ghost predicate FlightExplained(h: History, n: nat)
    requires n <= |h.actions|
  {
    var y := At(h, n);
    PendingOf(y.worker.phase).Some? ==>
      PendingFor(h, n, PendingOf(y.worker.phase).value) && PendingOf(y.worker.phase).value.request.ticket in y.watching
  }

  /** The marks are exactly the requests written so far. */
  ghost predicate MarksExplained(h: History, n: nat)
    requires n <= |h.actions|
  {
    var marks := ClientOf(At(h, n).worker.phase).dispatched;
    && (forall k :: k in marks ==> MarkFor(h, n, k) && k < At(h, n).frames)
    && (forall m: nat, r: SteerRequest, id: nat :: m < n && WrittenAt(h, m, r, id) ==> r.ticket in marks)
  }

  ghost predicate LogExplained(h: History, n: nat)
    requires n <= |h.actions|
  {
    forall e :: e in ClientOf(At(h, n).worker.phase).settled ==> SettledFor(h, n, e.0, e.1)
  }

  ghost predicate Explained(h: History, n: nat)
    requires n <= |h.actions|
  {
    && SlotExplained(h, n) && FlightExplained(h, n) && MarksExplained(h, n) && LogExplained(h, n)
    && forall k :: k in At(h, n).watching ==> k < At(h, n).frames
  }

  // ---------- one pass ----------

  /** Why an advance adds an entry to the settlement log. */
  ghost predicate EntryFrom(y: System, a: Action, k: nat, st: Settlement) {
    || Lost(st)
    || (IsRefusal(st) && y.worker.slot.Some? && k == y.worker.slot.value.ticket && !MaySend(y, a, y.worker.slot.value))
    || (st == Answered(Failed(TransportFailed)) && y.worker.slot.Some? && k == y.worker.slot.value.ticket
        && MaySend(y, a, y.worker.slot.value) && a.input.fate.Broken?)
    || (PendingOf(y.worker.phase).Some? && k == PendingOf(y.worker.phase).value.request.ticket
        && Judges(y, a, PendingOf(y.worker.phase).value.request, PendingOf(y.worker.phase).value.id, st))
  }

  predicate StrictOnly(w: Worker) {
    && (w.slot.Some? ==> w.slot.value.target.Some?)
    && (PendingOf(w.phase).Some? ==>
          var p := PendingOf(w.phase).value; p == Pending(p.id, Strict, p.request.target, p.request))
  }

  lemma AdvanceEntry(y: System, a: Action)
    requires a.Advance? && y.worker.phase.Running? && Offered(y.worker, a.input).Some? && StrictOnly(y.worker)
    ensures
      var was, now := y.worker.phase.loop.client.settled, ClientOf(OnAdvance(y.worker, a.input).phase).settled;
      now == was || (exists k, st :: now == was + [(k, st)] && EntryFrom(y, a, k, st))
  {
    hide Pass, JudgeAnswer, ReachesSelect;
    var s, i := y.worker.phase.loop, Offered(y.worker, a.input).value;
    var was := s.client.settled;
    var now := ClientAfter(Pass(y.worker.phase.turn, s, i)).settled;
    PassEntry(y.worker.phase.turn, s, i);
    if now != was {
      var (k, st) := now[|was|];
      assert now == was + [(k, st)];
      OfferedReaches(y.worker, a.input);
      assert EntryFrom(y, a, k, st);
    }
  }

  lemma OfferedReaches(w: Worker, i: Input)
    requires w.phase.Running? && Offered(w, i).Some?
    ensures ReachesSelect(w.phase.loop, Offered(w, i).value) <==> ReachesSelect(w.phase.loop, i)
    ensures Takes(w.phase.loop, Offered(w, i).value) <==> Takes(w.phase.loop, i)
  {
  }

  lemma AdvanceFlight(y: System, a: Action)
    requires a.Advance? && y.worker.phase.Running? && Offered(y.worker, a.input).Some? && StrictOnly(y.worker)
    ensures
      var w := OnAdvance(y.worker, a.input);
      var s := y.worker.phase.loop;
      && (PendingOf(w.phase).Some? ==>
            || s.pending == PendingOf(w.phase)
            || (y.worker.slot.Some? && Writes(y, a, y.worker.slot.value, s.client.nextId)
                && PendingOf(w.phase).value == Pending(s.client.nextId, Strict, y.worker.slot.value.target, y.worker.slot.value)))
      && (ClientOf(w.phase).dispatched == s.client.dispatched
          || (y.worker.slot.Some? && Writes(y, a, y.worker.slot.value, s.client.nextId)
              && ClientOf(w.phase).dispatched == s.client.dispatched + {y.worker.slot.value.ticket}))
      && (w.slot == y.worker.slot || w.slot.None?)
      && (y.worker.slot.Some? && Writes(y, a, y.worker.slot.value, s.client.nextId) ==>
            ClientOf(w.phase).dispatched == s.client.dispatched + {y.worker.slot.value.ticket} && w.slot.None?)
  {
    hide Pass, ReachesSelect;
    var t, s, i := y.worker.phase.turn, y.worker.phase.loop, Offered(y.worker, a.input).value;
    OfferedReaches(y.worker, a.input);
    if s.pending.None? {
      PassTakes(t, s, i);
      PassWrites(t, s, i);
    } else {
      PassKeepsDispatched(t, s, i);
      if Pass(t, s, i).Continue? { SteerAnswerIsItsOwn(t, s, i); }
    }
  }

  /** A pass that takes a request it may send, and writes it, marks it. */
  lemma PassWrites(t: Turn, s: Loop, i: Input)
    ensures Takes(s, i) && i.fate.Delivered? && SelectTransport(t.session, s.client, i.arm.request).Some? ==>
      ClientAfter(Pass(t, s, i)).dispatched == s.client.dispatched + {i.arm.request.ticket}
  {
    hide OnFrame, OnAnswer, Expired;
  }

  // ---------- every action ----------

  lemma {:induction false} LoggedIsSettled(log: seq<(nat, Settlement)>, e: (nat, Settlement))
    requires e in log
    ensures Settlements(log, e.0) >= 1
    decreases |log|
  {
    var front := log[..|log| - 1];
    if e in front {
      LoggedIsSettled(front, e);
    }
  }

  lemma AtConsistent(h: History, n: nat)
    requires Started(h) && n <= |h.actions|
    ensures Consistent(At(h, n))
  {
    hide Consistent;
    StartIsConsistent(h.identity, h.isOpen, h.client);
    EveryFrameAnsweredOnce(h.codec, System(Worker(h.identity, h.isOpen, None, Idle(h.client)), 0, {}, []), h.actions[..n]);
  }

  /** A request is in one place at a time. */
  lemma OnePlace(y: System, k: nat)
    requires Consistent(y)
    ensures y.worker.slot.Some? && y.worker.slot.value.ticket == k ==>
      InFlight(PendingOf(y.worker.phase), k) == 0 && forall st :: (k, st) !in ClientOf(y.worker.phase).settled
    ensures InFlight(PendingOf(y.worker.phase), k) == 1 ==> forall st :: (k, st) !in ClientOf(y.worker.phase).settled
  {
    hide Wired, Settlements;
    assert Accounted(y, k);
    forall st | (k, st) in ClientOf(y.worker.phase).settled ensures Settlements(ClientOf(y.worker.phase).settled, k) >= 1 {
      LoggedIsSettled(ClientOf(y.worker.phase).settled, (k, st));
    }
  }

  /** The marks after an action: those before, and the request it wrote. */
  ghost predicate MarksGrow(y: System, a: Action, z: System) {
    && (forall k :: k in ClientOf(y.worker.phase).dispatched ==> k in ClientOf(z.worker.phase).dispatched)
    && (forall k :: k in ClientOf(z.worker.phase).dispatched ==>
          k in ClientOf(y.worker.phase).dispatched || exists r, id :: Writes(y, a, r, id) && r.ticket == k)
    && (forall r, id :: Writes(y, a, r, id) ==> r.ticket in ClientOf(z.worker.phase).dispatched && z.worker.slot.None?)
  }

  ghost predicate FlightMoves(y: System, a: Action, z: System) {
    PendingOf(z.worker.phase).Some? ==>
      || PendingOf(z.worker.phase) == PendingOf(y.worker.phase)
      || var p := PendingOf(z.worker.phase).value;
         p == Pending(p.id, Strict, p.request.target, p.request) && Writes(y, a, p.request, p.id)
  }

  ghost predicate SlotMoves(y: System, a: Action, z: System) {
    z.worker.slot.Some? ==> z.worker.slot == y.worker.slot || (a.Submit? && z.worker.slot.value.ticket == y.frames)
  }

  ghost predicate LogMoves(y: System, a: Action, z: System) {
    var was, now := ClientOf(y.worker.phase).settled, ClientOf(z.worker.phase).settled;
    now == was || (exists k, st :: now == was + [(k, st)] && EntryFrom(y, a, k, st))
  }

  /** How one action moves requests. */
  lemma ActMoves(u: UuidCodec, y: System, a: Action)
    requires StrictOnly(y.worker)
    ensures var z := Act(u, y, a); MarksGrow(y, a, z) && FlightMoves(y, a, z) && SlotMoves(y, a, z) && LogMoves(y, a, z)
  {
    hide Pass, ParseSteer, FindSettlement, ReachesSelect, EntryFrom;
    match a
    case Advance(i) =>
      if y.worker.phase.Running? && Offered(y.worker, i).Some? {
        AdvanceEntry(y, a);
        AdvanceFlight(y, a);
      }
    case Drop => DropMoves(u, y);
    case Close => CloseMoves(u, y);
    case _ =>
  }

  lemma DropMoves(u: UuidCodec, y: System)
    ensures LogMoves(y, Drop, Act(u, y, Drop))
  {
    if y.worker.phase.Running? && y.worker.phase.loop.pending.Some? {
      assert EntryFrom(y, Drop, y.worker.phase.loop.pending.value.request.ticket, SenderDropped);
    }
  }

  lemma CloseMoves(u: UuidCodec, y: System)
    ensures LogMoves(y, Close, Act(u, y, Close))
  {
    if y.worker.phase.Idle? && y.worker.slot.Some? {
      assert EntryFrom(y, Close, y.worker.slot.value.ticket, SenderDropped);
    }
  }

  lemma {:induction false} FoundIsLogged(log: seq<(nat, Settlement)>, k: nat)
    ensures FindSettlement(log, k).Some? ==> (k, FindSettlement(log, k).value) in log
    decreases |log|
  {
    if log != [] {
      FoundIsLogged(log[..|log| - 1], k);
    }
  }

  lemma ExplainedIsStrict(h: History, n: nat)
    requires n <= |h.actions| && Explained(h, n)
    ensures StrictOnly(At(h, n).worker)
  {
    hide At, SubmittedAt, WrittenAt;
  }

  /** A watch ends only when its request has left the channel and the loop. */
  lemma WatchStep(h: History, n: nat)
    requires Started(h) && n < |h.actions| && Explained(h, n)
    ensures
      var y, z := At(h, n), At(h, n + 1);
      && (forall k :: k in z.watching ==> k < z.frames) && y.frames <= z.frames
      && (y.worker.slot.Some? ==> y.worker.slot.value.ticket in z.watching)
      && (PendingOf(y.worker.phase).Some? ==> PendingOf(y.worker.phase).value.request.ticket in z.watching)
  {
    hide At, ParseSteer, OnAdvance, OnDrop, OnClose, OnBegin, Consistent;
    AtNext(h, n);
    AtConsistent(h, n);
    var y, a := At(h, n), h.actions[n];
    if a.Report? {
      FoundIsLogged(ClientOf(y.worker.phase).settled, a.frame);
      OnePlace(y, a.frame);
    }
  }

  lemma SubmitMoves(u: UuidCodec, y: System, payload: Json)
    ensures var z := Act(u, y, Submit(payload)); z.worker.slot != y.worker.slot ==>
      && z.worker.slot.Some? && y.frames in z.watching && ClientOf(z.worker.phase) == ClientOf(y.worker.phase)
      && exists f :: ParseSteer(u, payload) == Ok(f) && z.worker.slot.value == RequestFor(u, f, y.frames)
  {
    hide ParseSteer;
  }

  lemma SlotStep(h: History, n: nat)
    requires Started(h) && n < |h.actions| && Explained(h, n)
    ensures SlotExplained(h, n + 1)
  {
    hide At, Act, WrittenAt, SettledFor, MarkFor, PendingFor, Carries, ParseSteer;
    AtNext(h, n);
    WatchStep(h, n);
    ExplainedIsStrict(h, n);
    var y, a, z := At(h, n), h.actions[n], At(h, n + 1);
    ActMoves(h.codec, y, a);
    if z.worker.slot.Some? {
      if z.worker.slot == y.worker.slot {
        var l: nat, f: SteerFrame :| l < n && SubmittedAt(h, l, z.worker.slot.value.ticket, f)
          && z.worker.slot.value == RequestFor(h.codec, f, z.worker.slot.value.ticket);
        assert SlotFor(h, n + 1, z.worker.slot.value);
        SlotIsUnwritten(y, a, z);
      } else {
        SubmitMoves(h.codec, y, a.payload);
        var f :| ParseSteer(h.codec, a.payload) == Ok(f) && z.worker.slot.value == RequestFor(h.codec, f, y.frames);
        ParsedExactlyWhen(h.codec, a.payload, f);
        assert SubmittedAt(h, n, y.frames, f);
      }
    }
  }

  lemma SlotIsUnwritten(y: System, a: Action, z: System)
    requires MarksGrow(y, a, z) && z.worker.slot.Some? && z.worker.slot == y.worker.slot
    requires z.worker.slot.value.ticket !in ClientOf(y.worker.phase).dispatched
    ensures z.worker.slot.value.ticket !in ClientOf(z.worker.phase).dispatched
  {
    hide Writes;
  }

  lemma FlightStep(h: History, n: nat)
    requires Started(h) && n < |h.actions| && Explained(h, n)
    ensures FlightExplained(h, n + 1)
  {
    hide At, Act, SettledFor, MarkFor, SlotFor, Writes;
    AtNext(h, n);
    WatchStep(h, n);
    ExplainedIsStrict(h, n);
    var y, a, z := At(h, n), h.actions[n], At(h, n + 1);
    ActMoves(h.codec, y, a);
    if PendingOf(z.worker.phase).Some? {
      var p := PendingOf(z.worker.phase).value;
      if PendingOf(y.worker.phase) == PendingOf(z.worker.phase) {
        assert PendingFor(h, n, p);
      } else {
        assert WrittenAt(h, n, p.request, p.id);
        WritesTheSlot(y, a, p.request, p.id);
      }
    }
  }

  lemma WritesTheSlot(y: System, a: Action, r: SteerRequest, id: nat)
    requires Writes(y, a, r, id)
    ensures y.worker.slot == Some(r)
  {
  }

  lemma MarksStep(h: History, n: nat)
    requires Started(h) && n < |h.actions| && Explained(h, n)
    ensures MarksExplained(h, n + 1)
  {
    hide At, Act, SettledFor, SlotFor, Writes, PendingFor;
    AtNext(h, n);
    WatchStep(h, n);
    ExplainedIsStrict(h, n);
    var y, a, z := At(h, n), h.actions[n], At(h, n + 1);
    ActMoves(h.codec, y, a);
    forall k | k in ClientOf(z.worker.phase).dispatched ensures MarkFor(h, n + 1, k) && k < z.frames {
      if k in ClientOf(y.worker.phase).dispatched {
        assert MarkFor(h, n, k);
      } else {
        var r, id :| Writes(y, a, r, id) && r.ticket == k;
        assert WrittenAt(h, n, r, id);
        WritesTheSlot(y, a, r, id);
      }
    }
    forall m: nat, r: SteerRequest, id: nat | m < n + 1 && WrittenAt(h, m, r, id)
      ensures r.ticket in ClientOf(z.worker.phase).dispatched
    {
      if m == n {
        assert Writes(y, a, r, id);
      }
    }
  }

  /** What settled a request goes on explaining it, since a settled request is never written again. */
  lemma SettledForStays(h: History, n: nat, k: nat, st: Settlement)
    requires Started(h) && n < |h.actions| && Explained(h, n)
    requires SettledFor(h, n, k, st) && (k, st) in ClientOf(At(h, n).worker.phase).settled
    ensures SettledFor(h, n + 1, k, st)
  {
    hide At, Act, SlotExplained, FlightExplained, Writes, JudgedAt, WrittenAt, BrokenAt, Consistent;
    AtNext(h, n);
    AtConsistent(h, n);
    ExplainedIsStrict(h, n);
    var y, a, z := At(h, n), h.actions[n], At(h, n + 1);
    ActMoves(h.codec, y, a);
    OnePlace(y, k);
    if k !in ClientOf(y.worker.phase).dispatched && k in ClientOf(z.worker.phase).dispatched {
      var r, id :| Writes(y, a, r, id) && r.ticket == k;
      WritesTheSlot(y, a, r, id);
      assert false;
    }
  }

  /** A new entry of the log is explained by the action that made it. */
  lemma NewEntryIsExplained(h: History, n: nat, k: nat, st: Settlement)
    requires Started(h) && n < |h.actions| && Explained(h, n) && EntryFrom(At(h, n), h.actions[n], k, st)
    ensures SettledFor(h, n + 1, k, st)
  {
    hide At, Act, MaySend, AnswerRead, LogExplained, MarkFor, SlotFor;
    AtNext(h, n);
    ExplainedIsStrict(h, n);
    var y, a, z := At(h, n), h.actions[n], At(h, n + 1);
    ActMoves(h.codec, y, a);
    if !Lost(st) {
      if PendingOf(y.worker.phase).Some? && k == PendingOf(y.worker.phase).value.request.ticket
        && Judges(y, a, PendingOf(y.worker.phase).value.request, PendingOf(y.worker.phase).value.id, st) {
        var p := PendingOf(y.worker.phase).value;
        var m: nat :| m < n && WrittenAt(h, m, p.request, p.id);
        assert JudgedAt(h, n, p.request, p.id, st);
      } else {
        var r := y.worker.slot.value;
        UnwrittenStaysUnmarked(y, a, z, r);
        if st == Answered(Failed(TransportFailed)) {
          assert BrokenAt(h, n, r);
        }
      }
    }
  }

  lemma UnwrittenStaysUnmarked(y: System, a: Action, z: System, r: SteerRequest)
    requires MarksGrow(y, a, z) && y.worker.slot == Some(r) && r.ticket !in ClientOf(y.worker.phase).dispatched
    requires !MaySend(y, a, r) || !a.input.fate.Delivered?
    ensures r.ticket !in ClientOf(z.worker.phase).dispatched
  {
    hide MaySend;
    if r.ticket in ClientOf(z.worker.phase).dispatched {
      var q, id :| Writes(y, a, q, id) && q.ticket == r.ticket;
      assert MaySend(y, a, q);
      SendsTheSlot(y, a, q);
      assert false;
    }
  }

  lemma SendsTheSlot(y: System, a: Action, r: SteerRequest)
    requires MaySend(y, a, r)
    ensures y.worker.slot == Some(r)
  {
  }

  lemma LogStep(h: History, n: nat)
    requires Started(h) && n < |h.actions| && Explained(h, n)
    ensures LogExplained(h, n + 1)
  {
    hide At, Act, EntryFrom, SettledFor, SlotExplained, FlightExplained, MarksExplained;
    AtNext(h, n);
    var y, a, z := At(h, n), h.actions[n], At(h, n + 1);
    ExplainedIsStrict(h, n);
    ActMoves(h.codec, y, a);
    forall e | e in ClientOf(z.worker.phase).settled ensures SettledFor(h, n + 1, e.0, e.1) {
      if e in ClientOf(y.worker.phase).settled {
        SettledForStays(h, n, e.0, e.1);
      } else {
        NewEntryIsExplained(h, n, e.0, e.1);
      }
    }
  }

  lemma StartIsExplained(h: History)
    requires Started(h)
    ensures Explained(h, 0)
  {
    assert h.actions[..0] == [];
  }

  /** At every point of every history the channel, the flight, the marks and the log have their explanations. */
  lemma {:induction false} AlwaysExplained(h: History, n: nat)
    requires Started(h) && n <= |h.actions|
    ensures Explained(h, n)
    decreases n
  {
    hide SlotExplained, FlightExplained, MarksExplained, LogExplained, At;
    if n == 0 {
      StartIsExplained(h);
    } else {
      AlwaysExplained(h, n - 1);
      SlotStep(h, n - 1);
      FlightStep(h, n - 1);
      MarksStep(h, n - 1);
      LogStep(h, n - 1);
      WatchStep(h, n - 1);
    }
  }

  // ---------- what a result proves ----------

  /** The handler answered the frame at once. */
  ghost predicate RefusedAt(h: History, l: nat, k: nat, status: string) {
    && l < |h.actions| && h.actions[l].Submit? && At(h, l).frames == k
    && Receive(h.codec, At(h, l).worker, h.actions[l].payload, k) == Rejected(status)
  }

  /** The watcher woke, found how the reply channel had ended, and read the mark as it was then. */
  ghost predicate ReportedAt(h: History, l: nat, k: nat, st: Settlement, status: string) {
    && l < |h.actions| && h.actions[l] == Report(k) && k in At(h, l).watching
    && FindSettlement(ClientOf(At(h, l).worker.phase).settled, k) == Some(st)
    && status == Classify(st, k in ClientOf(At(h, l).worker.phase).dispatched)
  }

  lemma {:induction false} ResultOrigin(h: History, n: nat, k: nat, status: string) returns (l: nat)
    requires n <= |h.actions| && (k, status) in At(h, n).results
    ensures l < n && (RefusedAt(h, l, k, status) || exists st :: ReportedAt(h, l, k, st, status))
    decreases n
  {
    hide ParseSteer, Classify, OnAdvance, OnDrop, OnClose, OnBegin, FindSettlement, ActAll;
    if n == 0 {
      assert h.actions[..0] == [];
      EmptyHistory(h);
      assert false;
    } else {
      AtNext(h, n - 1);
      if (k, status) in At(h, n - 1).results {
        l := ResultOrigin(h, n - 1, k, status);
      } else {
        l := n - 1;
        if h.actions[l].Report? {
          assert ReportedAt(h, l, k, FindSettlement(ClientOf(At(h, l).worker.phase).settled, k).value, status);
        }
      }
    }
  }

  lemma EmptyHistory(h: History)
    ensures At(h, 0).results == []
  {
    assert h.actions[..0] == [];
  }

  /** A frame that is no longer watched never is again. */
  lemma {:induction false} UnwatchedStays(h: History, l: nat, n: nat, k: nat)
    requires l <= n <= |h.actions| && k < At(h, l).frames && k !in At(h, l).watching
    ensures k < At(h, n).frames && k !in At(h, n).watching
    decreases n - l
  {
    hide ActAll, ParseSteer, OnAdvance, OnDrop, OnClose, OnBegin, FindSettlement;
    if l < n {
      AtNext(h, l);
      UnwatchedStays(h, l + 1, n, k);
    }
  }

  lemma AnsweredIsUnwatched(h: History, l: nat, k: nat, status: string)
    requires l < |h.actions| && Started(h)
    requires RefusedAt(h, l, k, status) || exists st :: ReportedAt(h, l, k, st, status)
    ensures k < At(h, l + 1).frames && k !in At(h, l + 1).watching
  {
    hide At, ParseSteer, SlotExplained, FlightExplained, MarksExplained, LogExplained, FindSettlement;
    AtNext(h, l);
    AlwaysExplained(h, l);
  }

  /** A written request came from a well-formed frame and is still watched when it is written. */
  lemma WrittenWasSubmitted(h: History, m: nat, r: SteerRequest, id: nat) returns (l: nat, f: SteerFrame)
    requires Started(h) && WrittenAt(h, m, r, id)
    ensures l < m && SubmittedAt(h, l, r.ticket, f) && r == RequestFor(h.codec, f, r.ticket)
    ensures r.ticket in At(h, m).watching && r.ticket < At(h, m).frames && r.ticket !in ClientOf(At(h, m).worker.phase).dispatched
  {
    hide At, Takes, SubmittedAt;
    AlwaysExplained(h, m);
    l, f :| l < m && SubmittedAt(h, l, r.ticket, f) && r == RequestFor(h.codec, f, r.ticket);
  }

  lemma WrittenOnce(h: History, m: nat, r: SteerRequest, id: nat, m': nat, r': SteerRequest, id': nat)
    requires Started(h) && WrittenAt(h, m, r, id) && WrittenAt(h, m', r', id') && r.ticket == r'.ticket
    ensures m == m' && r == r' && id == id'
  {
    hide At, Takes;
    var _, _ := WrittenWasSubmitted(h, m, r, id);
    var _, _ := WrittenWasSubmitted(h, m', r', id');
    AlwaysExplained(h, m);
    AlwaysExplained(h, m');
  }

  /** What a report rests on, given that its request was written by then or never is. */
  lemma ReportMeans(h: History, l: nat, k: nat, st: Settlement, status: string)
    requires Started(h) && ReportedAt(h, l, k, st, status)
    ensures SettledFor(h, l, k, st)
    ensures k in ClientOf(At(h, l).worker.phase).dispatched <==> exists m: nat, r: SteerRequest, id: nat :: WrittenAt(h, m, r, id) && r.ticket == k
  {
    hide At, SettledFor, WrittenAt, SlotFor, PendingFor;
    AlwaysExplained(h, l);
    FoundIsLogged(ClientOf(At(h, l).worker.phase).settled, k);
    if m: nat, r: SteerRequest, id: nat :| WrittenAt(h, m, r, id) && r.ticket == k {
      var _, _ := WrittenWasSubmitted(h, m, r, id);
      if m > l {
        AnsweredIsUnwatched(h, l, k, status);
        WrittenIsAnAction(h, m, r, id);
        UnwatchedStays(h, l + 1, m, k);
        assert false;
      }
      if m == l {
        ReportIsNoWrite(h, m, r, id);
        assert false;
      }
    }
  }

  lemma WrittenIsAnAction(h: History, m: nat, r: SteerRequest, id: nat)
    requires WrittenAt(h, m, r, id)
    ensures m < |h.actions|
  {
  }

  lemma ReportIsNoWrite(h: History, m: nat, r: SteerRequest, id: nat)
    requires WrittenAt(h, m, r, id)
    ensures !h.actions[m].Report?
  {
  }

  /** A frame refused at once is never written. */
  lemma RefusedIsUnwritten(h: History, l: nat, k: nat, status: string, m: nat, r: SteerRequest, id: nat)
    requires Started(h) && RefusedAt(h, l, k, status) && WrittenAt(h, m, r, id)
    ensures r.ticket != k
  {
    hide At, ParseSteer, Receive;
    var _, _ := WrittenWasSubmitted(h, m, r, id);
    if r.ticket == k {
      if m > l {
        AnsweredIsUnwatched(h, l, k, status);
        UnwatchedStays(h, l + 1, m, k);
      } else {
        AlwaysExplained(h, l);
      }
      assert false;
    }
  }

  /** The adapter answered the request under its own identifier, echoing both identities, with an outcome. */
  ghost predicate EchoedAt(h: History, j: nat, r: SteerRequest, id: nat, outcome: string) {
    AnsweredAt(h, j, id) && EchoesOutcome(h.actions[j].input.arm.msg, id, r, outcome)
  }

  /** The frame, then the write, then the echo of an outcome. */
  ghost predicate Told(h: History, k: nat, l: nat, f: SteerFrame, m: nat, id: nat, j: nat, outcome: string) {
    && l < m < j && SubmittedAt(h, l, k, f) && WrittenAt(h, m, RequestFor(h.codec, f, k), id)
    && EchoedAt(h, j, RequestFor(h.codec, f, k), id, outcome)
  }

  lemma JudgedEchoes(h: History, m: nat, j: nat, r: SteerRequest, id: nat, st: Settlement)
    requires Started(h) && m < j && WrittenAt(h, m, r, id) && JudgedAt(h, j, r, id, st) && r.target.Some?
    ensures st.Answered? && st.ack != Failed(StrictTargetMismatch) && st.ack != Failed(PromptCompleted)
    ensures st.ack.Success? ==> EchoedAt(h, j, r, id, "appended")
    ensures st == Answered(Failed(StrictOutcome("stale_target"))) ==> EchoedAt(h, j, r, id, "stale_target")
  {
    hide At, WrittenAt, ReachesSelect, JudgeAnswer, EchoesOutcome;
    var y := At(h, j);
    StrictSuccessEchoes(y.worker.phase.turn, y.worker.phase.loop.pending.value, h.actions[j].input.arm.msg);
  }

  /** The three moments behind an answer that was judged. */
  lemma JudgedStory(h: History, n: nat, k: nat, st: Settlement) returns (l: nat, f: SteerFrame, m: nat, id: nat, j: nat)
    requires Started(h) && n <= |h.actions| && SettledFor(h, n, k, st) && st.Answered?
    requires st.ack.Success? || st.ack == Failed(StrictOutcome("stale_target"))
    ensures Told(h, k, l, f, m, id, j, if st.ack.Success? then "appended" else "stale_target")
  {
    hide At, WrittenAt, JudgedAt, SubmittedAt, EchoedAt;
    var r: SteerRequest;
    m, j, r, id :| m < j < n && r.ticket == k && WrittenAt(h, m, r, id) && JudgedAt(h, j, r, id, st);
    l, f := WrittenWasSubmitted(h, m, r, id);
    JudgedEchoes(h, m, j, r, id, st);
  }

  /**
   An emitted `appended` is honest: its frame was well formed, its request was later written while session, turn and
   capability all matched, and still later a response under that fresh identifier echoed both identities with the
   outcome `appended`; in whatever turns, and whenever the watcher woke.
   */
  lemma EmittedAppendedIsHonest(h: History, k: nat) returns (l: nat, f: SteerFrame, m: nat, id: nat, j: nat)
    requires Started(h) && (k, "appended") in At(h, |h.actions|).results
    ensures Told(h, k, l, f, m, id, j, "appended")
  {
    hide At, ParseSteer, SettledFor, Told, FindSettlement;
    var o := ResultOrigin(h, |h.actions|, k, "appended");
    var st :| ReportedAt(h, o, k, st, "appended");
    ReportMeans(h, o, k, st, "appended");
    l, f, m, id, j := JudgedStory(h, o, k, st);
  }

  /** An emitted `stale_target` is honest: the request is written nowhere in the history, or the adapter said so. */
  lemma EmittedStaleTargetIsHonest(h: History, k: nat)
    requires Started(h) && (k, "stale_target") in At(h, |h.actions|).results
    ensures
      || (forall m: nat, r: SteerRequest, id: nat :: WrittenAt(h, m, r, id) ==> r.ticket != k)
      || (exists l, f, m, id, j :: Told(h, k, l, f, m, id, j, "stale_target"))
  {
    hide At, ParseSteer, Told, FindSettlement, Receive, WrittenAt, JudgedAt, BrokenAt;
    var o := ResultOrigin(h, |h.actions|, k, "stale_target");
    if RefusedAt(h, o, k, "stale_target") {
      forall m: nat, r: SteerRequest, id: nat | WrittenAt(h, m, r, id) ensures r.ticket != k {
        RefusedIsUnwritten(h, o, k, "stale_target", m, r, id);
      }
    } else {
      var st :| ReportedAt(h, o, k, st, "stale_target");
      ReportMeans(h, o, k, st, "stale_target");
      if k in ClientOf(At(h, o).worker.phase).dispatched {
        JudgedIsNoMismatch(h, o, k, st);
        var l, f, m, id, j := JudgedStory(h, o, k, st);
      }
    }
  }

  lemma JudgedIsNoMismatch(h: History, n: nat, k: nat, st: Settlement)
    requires Started(h) && n <= |h.actions| && SettledFor(h, n, k, st) && k in ClientOf(At(h, n).worker.phase).dispatched
    ensures Lost(st) || (st.ack != Failed(StrictTargetMismatch) && st.ack != Failed(PromptCompleted))
  {
    hide At, WrittenAt, JudgedAt, BrokenAt, EchoedAt;
    if !Lost(st) {
      var m: nat, j: nat, r: SteerRequest, id: nat :| m < j < n && r.ticket == k && WrittenAt(h, m, r, id) && JudgedAt(h, j, r, id, st);
      var l, f := WrittenWasSubmitted(h, m, r, id);
      JudgedEchoes(h, m, j, r, id, st);
    }
  }

  /** An emitted `unconfirmed` is honest: the request was written, or its write was tried and failed. */
  lemma EmittedUnconfirmedIsHonest(h: History, k: nat) returns (m: nat, r: SteerRequest)
    requires Started(h) && (k, "unconfirmed") in At(h, |h.actions|).results
    ensures r.ticket == k && (BrokenAt(h, m, r) || exists id :: WrittenAt(h, m, r, id))
  {
    hide At, ParseSteer, FindSettlement, WrittenAt, JudgedAt, BrokenAt;
    var o := ResultOrigin(h, |h.actions|, k, "unconfirmed");
    var st :| ReportedAt(h, o, k, st, "unconfirmed");
    ReportMeans(h, o, k, st, "unconfirmed");
    if st == Answered(Failed(TransportFailed)) && k !in ClientOf(At(h, o).worker.phase).dispatched {
      if m': nat, r': SteerRequest :| m' < o && BrokenAt(h, m', r') && r'.ticket == k {
        m, r := m', r';
        return;
      }
    }
    var id;
    m, r, id :| WrittenAt(h, m, r, id) && r.ticket == k;
  }

  /**
   A written request under whose identifier no running turn reads an answer is reported, if it is reported at all,
   as `unconfirmed`. Put the other way round: a written request reported otherwise was answered under its identifier.
   */
  lemma UnansweredIsUnconfirmed(h: History, m: nat, r: SteerRequest, id: nat, status: string)
    requires Started(h) && WrittenAt(h, m, r, id) && (r.ticket, status) in At(h, |h.actions|).results
    ensures status == "unconfirmed" || exists j: nat :: m < j && AnsweredAt(h, j, id)
  {
    hide At, ParseSteer, FindSettlement, Receive, WrittenAt, AnsweredAt, BrokenAt;
    var o := ResultOrigin(h, |h.actions|, r.ticket, status);
    if RefusedAt(h, o, r.ticket, status) {
      RefusedIsUnwritten(h, o, r.ticket, status, m, r, id);
      assert false;
    } else {
      var st :| ReportedAt(h, o, r.ticket, st, status);
      ReportMeans(h, o, r.ticket, st, status);
      if !Lost(st) {
        var m': nat, j: nat, r': SteerRequest, id': nat :| m' < j < o && r'.ticket == r.ticket && WrittenAt(h, m', r', id') && JudgedAt(h, j, r', id', st);
        WrittenOnce(h, m, r, id, m', r', id');
        assert AnsweredAt(h, j, id) by { JudgedIsAnswered(h, j, r', id', st); }
      }
    }
  }

  lemma JudgedIsAnswered(h: History, j: nat, r: SteerRequest, id: nat, st: Settlement)
    requires JudgedAt(h, j, r, id, st)
    ensures AnsweredAt(h, j, id)
  {
  }

  // ---------- answers are passed on ----------

  lemma JudgedSettles(y: System, a: Action, r: SteerRequest, id: nat, st: Settlement)
    requires Judges(y, a, r, id, st)
    ensures (r.ticket, st) in ClientOf(OnAdvance(y.worker, a.input).phase).settled
  {
    hide JudgeAnswer, Expired, OnMethod;
    var t, s, i := y.worker.phase.turn, y.worker.phase.loop, a.input;
    var woken := s.(client := Tick(Tick(s.client, i.before), i.wait));
    assert Pass(t, s, i) == OnSteerAnswer(t, Heard(t, woken, i.arm.hint), s.pending.value, i.arm.msg, i.work);
    SteerAnswerLog(t, Heard(t, woken, i.arm.hint), s.pending.value, i.arm.msg, i.work);
  }

  lemma {:induction false} LogPersists(h: History, n: nat, m: nat, e: (nat, Settlement))
    requires Started(h) && n <= m <= |h.actions| && e in ClientOf(At(h, n).worker.phase).settled
    ensures e in ClientOf(At(h, m).worker.phase).settled
    decreases m - n
  {
    hide At, Act, Explained, EntryFrom;
    if n < m {
      AtNext(h, n);
      AlwaysExplained(h, n);
      ExplainedIsStrict(h, n);
      ActMoves(h.codec, At(h, n), h.actions[n]);
      LogPersists(h, n + 1, m, e);
    }
  }

  lemma {:induction false} OneEntry(log: seq<(nat, Settlement)>, k: nat, a: Settlement, b: Settlement)
    requires (k, a) in log && (k, b) in log && Settlements(log, k) <= 1
    ensures a == b
    decreases |log|
  {
    var front, last := log[..|log| - 1], log[|log| - 1];
    if last.0 == k {
      if (k, a) in front { LoggedIsSettled(front, (k, a)); }
      if (k, b) in front { LoggedIsSettled(front, (k, b)); }
    } else {
      OneEntry(front, k, a, b);
    }
  }

  /** What settled a request is what is reported, read with the mark as it stands for good. */
  lemma ReportedAsSettled(h: History, n: nat, k: nat, st: Settlement, status: string)
    requires Started(h) && n <= |h.actions| && (k, st) in ClientOf(At(h, n).worker.phase).settled
    requires k in At(h, n).watching && (k, status) in At(h, |h.actions|).results
    ensures status == Classify(st, exists m: nat, r: SteerRequest, id: nat :: WrittenAt(h, m, r, id) && r.ticket == k)
  {
    hide At, ParseSteer, FindSettlement, Receive, SettledFor, Classify, WrittenAt, SlotFor, MarkFor;
    AlwaysExplained(h, n);
    var o := ResultOrigin(h, |h.actions|, k, status);
    if o < n {
      AnsweredIsUnwatched(h, o, k, status);
      UnwatchedStays(h, o + 1, n, k);
      assert false;
    } else {
      NotRefusedLater(h, n, o, k, status);
      var st' :| ReportedAt(h, o, k, st', status);
      LogPersists(h, n, o, (k, st));
      FoundIsLogged(ClientOf(At(h, o).worker.phase).settled, k);
      AtConsistent(h, o);
      assert Accounted(At(h, o), k);
      OneEntry(ClientOf(At(h, o).worker.phase).settled, k, st, st');
      ReportMeans(h, o, k, st', status);
    }
  }

  lemma ReportedAsJudged(h: History, j: nat, r: SteerRequest, id: nat, st: Settlement, status: string)
    requires Started(h) && JudgedAt(h, j, r, id, st) && (r.ticket, status) in At(h, |h.actions|).results
    ensures status == Classify(st, true)
  {
    hide At, ParseSteer, FindSettlement, Receive, JudgeAnswer, SettledFor, Classify, WrittenAt, SlotFor, MarkFor, ReachesSelect;
    AlwaysExplained(h, j);
    var m: nat :| m < j && WrittenAt(h, m, r, id);
    JudgedSettles(At(h, j), h.actions[j], r, id, st);
    AtNext(h, j);
    ReportedAsSettled(h, j + 1, r.ticket, st, status);
  }

  lemma {:induction false} FramesGrow(h: History, n: nat, m: nat)
    requires n <= m <= |h.actions|
    ensures At(h, n).frames <= At(h, m).frames
    decreases m - n
  {
    hide ActAll, ParseSteer, OnAdvance, OnDrop, OnClose, OnBegin, FindSettlement;
    if n < m {
      AtNext(h, n);
      FramesGrow(h, n + 1, m);
    }
  }

  lemma NotRefusedLater(h: History, j: nat, o: nat, k: nat, status: string)
    requires j <= o < |h.actions| && k < At(h, j).frames
    ensures !RefusedAt(h, o, k, status)
  {
    hide At, Receive;
    FramesGrow(h, j, o);
  }

  /** The adapter's word is passed on: if the answer to the request in flight echoes both identities with one of the five
      outcomes, the result, once emitted, is that outcome and no other. */
  lemma OutcomeIsPassedOn(h: History, j: nat, r: SteerRequest, id: nat, outcome: string, status: string)
    requires Started(h) && EchoedAt(h, j, r, id, outcome)
    requires At(h, j).worker.phase.loop.pending == Some(Pending(id, Strict, r.target, r))
    requires outcome in {"appended", "stale_target", "rejected", "busy", "expired"}
    requires (r.ticket, status) in At(h, |h.actions|).results
    ensures status == outcome
  {
    hide At, ReachesSelect;
    var y := At(h, j);
    var st := Answered(JudgeAnswer(y.worker.phase.turn, y.worker.phase.loop.pending.value, h.actions[j].input.arm.msg).ack);
    assert JudgedAt(h, j, r, id, st);
    ReportedAsJudged(h, j, r, id, st, status);
  }

  /** An answer that cannot be used: an error is reported as a rejection, anything else that does not echo both identities
      with one of the five outcomes as `unconfirmed`. */
  lemma UnusableAnswerIsReported(h: History, j: nat, r: SteerRequest, id: nat, status: string)
    requires Started(h) && AnsweredAt(h, j, id) && r.target.Some?
    requires At(h, j).worker.phase.loop.pending == Some(Pending(id, Strict, r.target, r))
    requires forall outcome :: outcome in {"appended", "stale_target", "rejected", "busy", "expired"} ==> !EchoedAt(h, j, r, id, outcome)
    requires (r.ticket, status) in At(h, |h.actions|).results
    ensures status == if Get(h.actions[j].input.arm.msg, "error").Some? then "rejected" else "unconfirmed"
  {
    hide At, ReachesSelect;
    var y, msg := At(h, j), h.actions[j].input.arm.msg;
    var st := Answered(JudgeAnswer(y.worker.phase.turn, y.worker.phase.loop.pending.value, msg).ack);
    assert JudgedAt(h, j, r, id, st);
    assert !EchoedAt(h, j, r, id, "appended") && !EchoedAt(h, j, r, id, "stale_target") && !EchoedAt(h, j, r, id, "rejected")
      && !EchoedAt(h, j, r, id, "busy") && !EchoedAt(h, j, r, id, "expired");
    ReportedAsJudged(h, j, r, id, st, status);
  }

  /** A request the loop takes but may not send is reported: as `rejected` if the adapter lacks the capability, as
      `stale_target` if session or turn do not match. */
  lemma RefusalIsReported(h: History, m: nat, r: SteerRequest, status: string)
    requires Started(h) && m < |h.actions| && h.actions[m].Advance? && h.actions[m].input.arm.Steer?
    requires At(h, m).worker.phase.Running? && At(h, m).worker.slot == Some(r) && r.target.Some?
    requires Takes(At(h, m).worker.phase.loop, h.actions[m].input) && !MaySend(At(h, m), h.actions[m], r)
    requires (r.ticket, status) in At(h, |h.actions|).results
    ensures status == if At(h, m).worker.phase.loop.client.strictSteering then "stale_target" else "rejected"
  {
    hide At, ParseSteer, FindSettlement, Receive, SettledFor, Pass, SlotFor, MarkFor, PendingFor;
    var y, a := At(h, m), h.actions[m];
    var t, s, i := y.worker.phase.turn, y.worker.phase.loop, Offered(y.worker, a.input).value;
    var st := Answered(Failed(if s.client.strictSteering then StrictTargetMismatch else StrictUnsupported));
    AlwaysExplained(h, m);
    TurnWire.TakenFares(t, s, i);
    AtNext(h, m);
    assert (r.ticket, st) in ClientOf(At(h, m + 1).worker.phase).settled;
    ReportedAsSettled(h, m + 1, r.ticket, st, status);
  }

  /** A request whose write was tried and failed is reported as `unconfirmed`. */
  lemma BrokenWriteIsReported(h: History, m: nat, r: SteerRequest, status: string)
    requires Started(h) && BrokenAt(h, m, r) && (r.ticket, status) in At(h, |h.actions|).results
    ensures status == "unconfirmed"
  {
    hide At, ParseSteer, FindSettlement, Receive, SettledFor, Pass, SlotFor, MarkFor, PendingFor;
    var y, a := At(h, m), h.actions[m];
    var t, s, i := y.worker.phase.turn, y.worker.phase.loop, Offered(y.worker, a.input).value;
    AlwaysExplained(h, m);
    TurnWire.TakenFares(t, s, i);
    AtNext(h, m);
    assert (r.ticket, Answered(Failed(TransportFailed))) in ClientOf(At(h, m + 1).worker.phase).settled;
    ReportedAsSettled(h, m + 1, r.ticket, Answered(Failed(TransportFailed)), status);
  }
}
