/** What every history of the staging server keeps. */
module StagingSafety {
  import opened Options
  import opened Staging

  predicate Claims(f: Option<File>) {
    f.Some? && f.value.status != Unavailable
  }

  predicate FileIsHonest(s: State, f: Option<File>) {
    Claims(f) ==>
      && s.last == Finished(f.value.baseline)
      && s.data == WholeData(f.value.baseline)
      && (f.value.status == ServerVerified ==>
            && f.value.channel.Some? && f.value.event.Some? && f.value.content.Some?
            && Probe(f.value.channel.value, f.value.event.value, f.value.content.value) in s.attested)
  }

  /** The relay never serves a half-restored server. */
  ghost predicate Presentable(d: Data) {
    d == UNTOUCHED || exists b :: d == WholeData(b)
  }

  ghost predicate StartIsChecked(st: Start) {
    st.passed == RESTORE_CHECKS && exists b :: st.data == WholeData(b)
  }

  /** A probe message is on record, durably, before it is sent. */
  predicate SendIsRecorded(m: Send) {
    m.recorded.Some? && m.recorded.value.status == Verifying
    && m.recorded.value.channel == Some(m.channel) && m.recorded.value.content == Some(m.content)
  }

  ghost predicate Safe(s: State) {
    && FileIsHonest(s, s.visible) && FileIsHonest(s, s.durable)
    && (s.relay ==> Presentable(s.data))
    && (forall i :: 0 <= i < |s.starts| ==> StartIsChecked(s.starts[i]))
    && (forall i :: 0 <= i < |s.sends| ==> SendIsRecorded(s.sends[i]))
  }

  // ---------- running steps ----------

  /** The state after all the steps, if all succeed. */
  function Fold(s: State, ops: seq<Op>): State
    decreases |ops|
  {
    if ops == [] then s else Fold(Apply(s, ops[0], Done), ops[1..])
  }

  lemma {:induction false} CompletedMeans(s: State, ops: seq<Op>, fates: seq<Fate>)
    ensures Exec(s, ops, fates).end == Completed ==> Exec(s, ops, fates).state == Fold(s, ops)
    decreases |ops|
  {
    if ops != [] && fates != [] {
      CompletedMeans(Apply(s, ops[0], fates[0]), ops[1..], fates[1..]);
    }
  }

  /** Steps that touch neither the file nor the relay. */
  predicate Inner(op: Op) {
    op.Require? || op.Do? || op.DropDb? || op.CreateDb? || op.Load? || op.Clear? || op.Unpack? || op.Pass?
  }

  predicate NoClaims(s: State) {
    !Claims(s.visible) && !Claims(s.durable)
  }

  /** While the file admits nothing and the relay is down, the data may be in any condition. */
  lemma {:induction false} InnerIsSafe(s: State, ops: seq<Op>, fates: seq<Fate>)
    requires Safe(s) && NoClaims(s) && !s.relay && forall i :: 0 <= i < |ops| ==> Inner(ops[i])
    ensures var t := Exec(s, ops, fates).state; Safe(t) && NoClaims(t) && !t.relay
    decreases |ops|
  {
    if ops != [] && fates != [] {
      var next := Apply(s, ops[0], fates[0]);
      assert Inner(ops[0]);
      assert Safe(next) && NoClaims(next) && !next.relay;
      InnerIsSafe(next, ops[1..], fates[1..]);
    }
  }

  /** Either write step, cut anywhere, leaves each copy of the file as one of the two versions. */
  lemma WriteMeans(s: State, f: File, fates: seq<Fate>)
    ensures var o := Exec(s, Write(f), fates);
      && o.state == s.(visible := o.state.visible, durable := o.state.durable)
      && o.state.visible in {s.visible, Some(f)}
      && o.state.durable in {s.durable, Some(f)}
      && (o.end == Completed ==> o.state.visible == Some(f) && o.state.durable == Some(f))
  {
    assert Write(f)[0] == Replace(f) && Write(f)[1..] == [SyncDir] && [SyncDir][1..] == [];
    if fates != [] && EndOf(Replace(f), fates[0]) == Completed {
      var next := Apply(s, Replace(f), fates[0]);
      if fates[1..] != [] {
        assert Exec(next, [SyncDir], fates[1..]).state == Apply(next, SyncDir, fates[1]);
      }
    }
  }

  /** A write of an honest file is safe wherever it is cut. */
  lemma WriteIsSafe(s: State, f: File, fates: seq<Fate>)
    requires Safe(s) && FileIsHonest(s, Some(f))
    ensures Safe(Exec(s, Write(f), fates).state)
  {
    hide Exec;
    WriteMeans(s, f, fates);
    var t := Exec(s, Write(f), fates).state;
    assert FileIsHonest(t, t.visible) && FileIsHonest(t, t.durable);
  }

  lemma {:induction false} ExecTogether(s: State, a: seq<Op>, b: seq<Op>, fates: seq<Fate>)
    ensures Exec(s, a + b, fates) == Then(Exec(s, a, fates), b)
    decreases |a|
  {
    if a == [] {
      assert a + b == b;
    } else if fates != [] {
      assert (a + b)[0] == a[0] && (a + b)[1..] == a[1..] + b;
      ExecTogether(Apply(s, a[0], fates[0]), a[1..], b, fates[1..]);
    }
  }

  lemma ExecOne(s: State, op: Op, fates: seq<Fate>)
    ensures Exec(s, [op], fates) ==
      if fates == [] then Outcome(Cut, s, []) else Outcome(EndOf(op, fates[0]), Apply(s, op, fates[0]), fates[1..])
  {
    assert [op][1..] == [];
  }

  // ---------- a restore ----------

  lemma TakeDownIsSafe(s: State, b: Baseline, fates: seq<Fate>)
    requires Safe(s)
    ensures var o := Exec(s, TakeDown(b), fates);
      && Safe(o.state)
      && (o.end == Completed ==> NoClaims(o.state) && !o.state.relay && o.state.passed == {})
  {
    hide Exec;
    var f := Down(b, false);
    assert TakeDown(b) == Write(f) + [StopForRestore(b)];
    ExecTogether(s, Write(f), [StopForRestore(b)], fates);
    WriteIsSafe(s, f, fates);
    WriteMeans(s, f, fates);
    var o := Exec(s, Write(f), fates);
    ExecOne(o.state, StopForRestore(b), o.fates);
  }

  lemma ThenInner(o: Outcome, ops: seq<Op>)
    requires Safe(o.state) && (o.end == Completed ==> NoClaims(o.state) && !o.state.relay)
    requires forall i :: 0 <= i < |ops| ==> Inner(ops[i])
    ensures var p := Then(o, ops); Safe(p.state) && (p.end == Completed ==> NoClaims(p.state) && !p.state.relay)
    ensures Then(o, ops).end == Completed ==> o.end == Completed && Then(o, ops).state == Fold(o.state, ops)
  {
    hide Exec, Safe, Fold;
    if o.end == Completed {
      InnerIsSafe(o.state, ops, o.fates);
      CompletedMeans(o.state, ops, o.fates);
    }
  }

  lemma {:induction false} FoldTogether(s: State, a: seq<Op>, b: seq<Op>)
    ensures Fold(s, a + b) == Fold(Fold(s, a), b)
    decreases |a|
  {
    if a == [] {
      assert a + b == b;
    } else {
      assert (a + b)[0] == a[0] && (a + b)[1..] == a[1..] + b;
      FoldTogether(Apply(s, a[0], Done), a[1..], b);
    }
  }

  lemma FoldThree(s: State, a: Op, b: Op, c: Op)
    ensures Fold(s, [a, b, c]) == Apply(Apply(Apply(s, a, Done), b, Done), c, Done)
  {
    hide Apply;
    assert [a, b, c][1..] == [b, c] && [b, c][1..] == [c] && [c][1..] == [];
    assert Fold(Apply(Apply(s, a, Done), b, Done), [c]) == Apply(Apply(Apply(s, a, Done), b, Done), c, Done);
    assert Fold(Apply(s, a, Done), [b, c]) == Fold(Apply(Apply(s, a, Done), b, Done), [c]);
  }

  lemma RebuiltDb(s: State, b: Baseline)
    ensures Fold(s, (DROP_OLD + MAKE_NEW)) == s.(data := s.data.(db := Built([])), passed := s.passed - {Events, ExecutableState})
  {
    hide Fold;
    var p, q := DROP_OLD, MAKE_NEW;
    FoldTogether(s, p, q);
    FoldThree(s, p[0], p[1], p[2]);
    FoldThree(Fold(s, p), q[0], q[1], q[2]);
  }

  lemma LoadStep(s: State, b: Baseline, stage: Stage)
    requires s.data.db.Built?
    ensures Apply(s, Load(b, stage), Done) ==
      s.(data := s.data.(db := Built(s.data.db.done + [(b, stage)])), passed := s.passed - {Events, ExecutableState})
  {
  }

  /** The first stages, then the later ones, each appended in turn. */
  lemma LoadedEarly(s: State, b: Baseline)
    requires s.data.db == Built([])
    ensures Fold(s, LoadSchema(b)) ==
      s.(data := s.data.(db := Built([(b, PreData), (b, Communities)])), passed := s.passed - {Events, ExecutableState})
  {
    hide Fold;
    FoldThree(s, Load(b, PreData), Load(b, Communities), Do(CheckUserSnapshot));
    LoadStep(s, b, PreData);
    LoadStep(Apply(s, Load(b, PreData), Done), b, Communities);
    assert [] + [(b, PreData)] + [(b, Communities)] == [(b, PreData), (b, Communities)];
  }

  lemma LoadedLate(s: State, b: Baseline)
    requires s.data.db == Built([(b, PreData), (b, Communities)])
    ensures Fold(s, LoadRows(b)) ==
      s.(data := s.data.(db := Built([(b, PreData), (b, Communities), (b, Users), (b, Rows), (b, PostData)])),
         passed := s.passed - {Events, ExecutableState})
  {
    hide Fold, Apply;
    FoldThree(s, Load(b, Users), Load(b, Rows), Load(b, PostData));
    var s1 := Apply(s, Load(b, Users), Done);
    LoadStep(s, b, Users);
    LoadStep(s1, b, Rows);
    LoadStep(Apply(s1, Load(b, Rows), Done), b, PostData);
    assert s.data.db.done + [(b, Users)] + [(b, Rows)] + [(b, PostData)] ==
      [(b, PreData), (b, Communities), (b, Users), (b, Rows), (b, PostData)];
  }

  lemma LoadedLast(s: State, b: Baseline)
    requires s.data.db == Built([(b, PreData), (b, Communities), (b, Users), (b, Rows), (b, PostData)])
    ensures Fold(s, MigrateAndCheck(b)) ==
      s.(data := s.data.(db := WholeData(b).db), passed := s.passed + {Events, ExecutableState})
  {
    hide Fold;
    FoldThree(s, Load(b, Migrations), Pass(Events), Pass(ExecutableState));
    LoadStep(s, b, Migrations);
    assert s.data.db.done + [(b, Migrations)] == WholeData(b).db.done;
    assert s.passed - {Events, ExecutableState} + {Events} + {ExecutableState} == s.passed + {Events, ExecutableState};
  }

  lemma LoadedDb(s: State, b: Baseline)
    requires s.data.db == Built([])
    ensures Fold(s, LoadDb(b)) == s.(data := s.data.(db := WholeData(b).db), passed := s.passed + {Events, ExecutableState})
  {
    hide Fold, Apply;
    var p, q, r := LoadSchema(b), LoadRows(b), MigrateAndCheck(b);
    FoldTogether(s, p, q + r);
    FoldTogether(Fold(s, p), q, r);
    LoadedEarly(s, b);
    LoadedLate(Fold(s, p), b);
    LoadedLast(Fold(Fold(s, p), q), b);
    assert s.passed - {Events, ExecutableState} - {Events, ExecutableState} + {Events, ExecutableState}
      == s.passed + {Events, ExecutableState};
  }

  lemma LoadedAsset(s: State, b: Baseline, a: Asset)
    ensures Fold(s, LoadAsset(b, a)) ==
      s.(data := if a == Media then s.data.(media := Holds(b)) else s.data.(git := Holds(b)), passed := s.passed - {Assets})
  {
    FoldThree(s, Clear(a), Do(CopyArchive), Unpack(b, a));
  }

  lemma CheckedBeforeRelay(s: State)
    ensures Fold(s, BEFORE_RELAY) == s.(passed := s.passed + {Assets, Ownership})
  {
    hide Fold;
    var p, q := READ_BACK, [Pass(Ownership)];
    FoldTogether(s, p, q);
    FoldThree(s, p[0], p[1], p[2]);
    FoldOne(Fold(s, p), q[0]);
    assert Fold(s, BEFORE_RELAY).passed == s.passed + {Assets, Ownership};
  }

  lemma FoldOne(s: State, a: Op)
    ensures Fold(s, [a]) == Apply(s, a, Done)
  {
    assert [a][1..] == [];
  }

  /** Until the relay is started nothing is promised; by then every part is in place and every check has passed. */
  lemma RebuildIsSafe(o: Outcome, b: Baseline)
    requires Safe(o.state) && (o.end == Completed ==> NoClaims(o.state) && !o.state.relay && o.state.passed == {})
    ensures var p := Rebuild(o, b);
      && Safe(p.state)
      && (p.end == Completed ==>
            NoClaims(p.state) && !p.state.relay && p.state.data == WholeData(b) && p.state.passed == RESTORE_CHECKS)
  {
    hide Then, Safe, Fold, Exec;
    var o1 := Then(o, (DROP_OLD + MAKE_NEW));
    var o2 := Then(o1, LoadDb(b));
    var o3 := Then(o2, LoadAsset(b, Media));
    var o4 := Then(o3, LoadAsset(b, Git));
    ThenInner(o, (DROP_OLD + MAKE_NEW));
    ThenInner(o1, LoadDb(b));
    ThenInner(o2, LoadAsset(b, Media));
    ThenInner(o3, LoadAsset(b, Git));
    ThenInner(o4, BEFORE_RELAY);
    if Rebuild(o, b).end == Completed {
      RebuiltDb(o.state, b);
      LoadedDb(o1.state, b);
      LoadedAsset(o2.state, b, Media);
      LoadedAsset(o3.state, b, Git);
      CheckedBeforeRelay(o4.state);
    }
  }

  lemma ExposeIsSafe(o: Outcome, b: Baseline)
    requires Safe(o.state)
    requires o.end == Completed ==> NoClaims(o.state) && o.state.data == WholeData(b) && o.state.passed == RESTORE_CHECKS
    ensures var p := Then(o, [StartRelay]);
      Safe(p.state) && (p.end == Completed ==> NoClaims(p.state) && p.state.data == WholeData(b))
  {
    hide Exec;
    if o.end == Completed {
      ExecOne(o.state, StartRelay, o.fates);
      var p := Then(o, [StartRelay]);
      assert Presentable(p.state.data);
      assert StartIsChecked(Start(o.state.passed, o.state.data));
    }
  }

  lemma SettleIsSafe(o: Outcome, b: Baseline)
    requires Safe(o.state) && (o.end == Completed ==> NoClaims(o.state) && o.state.data == WholeData(b))
    ensures var p := Settle(o, b);
      && Safe(p.state)
      && (p.end == Completed ==> NoClaims(p.state) && p.state.data == WholeData(b) && p.state.last == Finished(b))
  {
    hide Exec;
    if o.end == Completed {
      ExecOne(o.state, AwaitRelay(b), o.fates);
      var ready := Exec(o.state, [AwaitRelay(b)], o.fates);
      if ready.end == Failed {
        ExecOne(ready.state, StopRelay, ready.fates);
        var stop := Exec(ready.state, [StopRelay], ready.fates);
        if stop.end == Failed {
          WriteIsSafe(stop.state, Down(b, true), stop.fates);
        }
      }
    }
  }

  lemma RestoreIsSafe(s: State, b: Baseline, fates: seq<Fate>)
    requires Safe(s)
    ensures Safe(Restore(s, b, fates).state)
  {
    hide Exec, Safe, Rebuild, Settle;
    TakeDownIsSafe(s, b, fates);
    var down := Exec(s, TakeDown(b), fates);
    RebuildIsSafe(down, b);
    var built := Rebuild(down, b);
    ExposeIsSafe(built, b);
    var exposed := Then(built, [StartRelay]);
    SettleIsSafe(exposed, b);
    var settled := Settle(exposed, b);
    if settled.end == Completed {
      WriteIsSafe(settled.state, Up(b), settled.fates);
    }
  }

  // ---------- a verification ----------

  /** The data and its provenance stay as they are throughout a verification. */
  predicate Backed(s: State, b: Baseline) {
    s.last == Finished(b) && s.data == WholeData(b)
  }

  lemma {:induction false} ChecksAreSafe(s: State, ops: seq<Op>, fates: seq<Fate>)
    requires Safe(s) && forall i :: 0 <= i < |ops| ==> ops[i].Require? || ops[i].Do? || ops[i].Pass?
    ensures var t := Exec(s, ops, fates).state; Safe(t) && t == s.(passed := t.passed)
    decreases |ops|
  {
    if ops != [] && fates != [] {
      ChecksAreSafe(Apply(s, ops[0], fates[0]), ops[1..], fates[1..]);
    }
  }

  lemma PassedAdds(s: State, c: Check)
    requires c in VERIFY_CHECKS
    ensures Apply(s, Pass(c), Done).passed + VERIFY_CHECKS == s.passed + VERIFY_CHECKS
    ensures c in Apply(s, Pass(c), Done).passed
    ensures c != StillOwned ==> s.passed <= Apply(s, Pass(c), Done).passed
  {
  }

  lemma CheckedBaseline(s: State, f: Option<File>, b: Baseline)
    ensures Fold(s, CheckBaseline(f, b)).passed == s.passed + VERIFY_CHECKS
  {
    hide Fold, Apply;
    var p, q := CheckTarget(f, b), CHECK_SERVICE;
    FoldTogether(s, p, q);
    FoldThree(s, p[0], p[1], p[2]);
    FoldThree(Fold(s, p), q[0], q[1], q[2]);
    assert Apply(s, p[0], Done) == s by { RequireKeeps(s, p[0]); }
    var s1 := Apply(s, p[1], Done);
    var s2 := Apply(s1, p[2], Done);
    var s3 := Apply(s2, q[0], Done);
    var s4 := Apply(s3, q[1], Done);
    PassedAdds(s, StillOwned);
    PassedAdds(s1, ServicesRunning);
    PassedAdds(s2, BatchesReadBack);
    PassedAdds(s3, RelayReady);
    PassedAdds(s4, ProbeTool);
    assert VERIFY_CHECKS <= Apply(s4, q[2], Done).passed;
  }

  lemma RequireKeeps(s: State, op: Op)
    requires op.Require?
    ensures Apply(s, op, Done) == s
  {
  }

  /** Writing a claim about the baseline that is in place. */
  lemma ThenWrite(o: Outcome, f: File, b: Baseline)
    requires Safe(o.state) && Backed(o.state, b) && f.status == Verifying && f.baseline == b
    ensures var p := Then(o, Write(f));
      && Safe(p.state) && Backed(p.state, b) && p.state.passed == o.state.passed
      && (p.end == Completed ==> p.state.visible == Some(f) && p.state.durable == Some(f))
  {
    hide Exec, Safe;
    if o.end == Completed {
      WriteIsSafe(o.state, f, o.fates);
      WriteMeans(o.state, f, o.fates);
    }
  }

  lemma OpenChannelIsSafe(o: Outcome, f: File, a: Answers, b: Baseline)
    requires Safe(o.state) && Backed(o.state, b) && f.status == Verifying && f.baseline == b
    ensures var p := Then(o, OpenChannel(f, a));
      Safe(p.state) && Backed(p.state, b) && p.state.passed == o.state.passed
  {
    hide Exec, Safe, Write;
    if o.end == Completed {
      if Present(f.channel) {
        ExecNone(o.state, o.fates);
      } else {
        var g := WithChannel(f, a);
        var ops := [Do(CreateChannel)];
        assert OpenChannel(f, a) == ops + Write(g) by { WriteIs(g); }
        ExecTogether(o.state, ops, Write(g), o.fates);
        ExecOne(o.state, Do(CreateChannel), o.fates);
        ThenWrite(Exec(o.state, ops, o.fates), g, b);
      }
    }
  }

  lemma WriteIs(f: File)
    ensures Write(f) == [Replace(f), SyncDir]
  {
  }

  lemma ExecNone(s: State, fates: seq<Fate>)
    ensures Exec(s, [], fates) == Outcome(Completed, s, fates)
  {
  }

  lemma SendIsSafe(o: Outcome, f: File, b: Baseline)
    requires Safe(o.state) && Backed(o.state, b) && f.status == Verifying && f.channel.Some? && f.content.Some?
    requires o.end == Completed ==> o.state.durable == Some(f)
    ensures var p := Then(o, [SendProbe(f.channel.value, f.content.value)]);
      Safe(p.state) && Backed(p.state, b) && p.state.passed == o.state.passed
  {
    hide Exec;
    if o.end == Completed {
      ExecOne(o.state, SendProbe(f.channel.value, f.content.value), o.fates);
    }
  }

  lemma PublishIsSafe(o: Outcome, f: File, a: Answers, b: Baseline)
    requires Safe(o.state) && Backed(o.state, b) && f.status == Verifying && f.baseline == b && f.channel.Some?
    ensures var p := Then(o, Publish(f, a));
      Safe(p.state) && Backed(p.state, b) && p.state.passed == o.state.passed
  {
    hide Exec, Safe, Write;
    if o.end == Completed {
      if Present(f.event) {
        ExecNone(o.state, o.fates);
      } else {
        var g := WithContent(f, a);
        var h := g.(event := Some(a.event));
        var send := [SendProbe(g.channel.value, g.content.value)];
        assert Publish(f, a) == Write(g) + (send + Write(h)) by { WriteIs(g); WriteIs(h); }
        ExecTogether(o.state, Write(g), send + Write(h), o.fates);
        ThenWrite(o, g, b);
        var o1 := Then(o, Write(g));
        ThenTogether(o1, send, Write(h));
        SendIsSafe(o1, g, b);
        ThenWrite(Then(o1, send), h, b);
      }
    }
  }

  lemma ThenTogether(o: Outcome, a: seq<Op>, b: seq<Op>)
    ensures Then(o, a + b) == Then(Then(o, a), b)
  {
    hide Exec;
    if o.end == Completed {
      ExecTogether(o.state, a, b, o.fates);
    }
  }

  lemma ThenKeeps(o: Outcome, op: Op, b: Baseline)
    requires Safe(o.state) && Backed(o.state, b) && (op.Require? || op.ReadBack? || op.Sentinel?)
    ensures var p := Then(o, [op]);
      && Safe(p.state) && Backed(p.state, b) && p.state.passed == o.state.passed
      && (p.end == Completed && op.ReadBack? ==> p.state.read == Some(op.probe))
      && (p.end == Completed && op.Sentinel? && o.state.read.Some? && VERIFY_CHECKS <= o.state.passed ==>
            o.state.read.value in p.state.attested)
  {
    hide Exec;
    if o.end == Completed {
      ExecOne(o.state, op, o.fates);
    }
  }

  lemma ReadBackMeans(o: Outcome, probe: Probe, b: Baseline)
    requires Safe(o.state) && Backed(o.state, b) && VERIFY_CHECKS <= o.state.passed
    ensures var p := Then(o, [Require(true), ReadBack(probe), Sentinel]);
      && Safe(p.state) && Backed(p.state, b)
      && (p.end == Completed ==> probe in p.state.attested)
  {
    hide Exec, Safe, Backed;
    var a, c, d := [Require(true)], [ReadBack(probe)], [Sentinel];
    assert [Require(true), ReadBack(probe), Sentinel] == a + (c + d);
    ThenTogether(o, a, c + d);
    var o1 := Then(o, a);
    ThenTogether(o1, c, d);
    var o2 := Then(o1, c);
    ThenKeeps(o, Require(true), b);
    ThenKeeps(o1, ReadBack(probe), b);
    ThenKeeps(o2, Sentinel, b);
  }

  lemma AttestIsSafe(o: Outcome, f: File, b: Baseline)
    requires Safe(o.state) && Backed(o.state, b) && VERIFY_CHECKS <= o.state.passed
    requires f.baseline == b && f.channel.Some? && f.event.Some?
    ensures Safe(Then(o, Attest(f)).state)
  {
    hide Exec, Safe, Write;
    if f.content.None? {
      ExecOne(o.state, Require(false), o.fates);
    } else {
      var probe := Probe(f.channel.value, f.event.value, f.content.value);
      var ops, g := [Require(true), ReadBack(probe), Sentinel], f.(status := ServerVerified);
      assert Attest(f) == ops + Write(g) by { WriteIs(g); }
      ThenTogether(o, ops, Write(g));
      ReadBackMeans(o, probe, b);
      var p := Then(o, ops);
      if p.end == Completed {
        WriteIsSafe(p.state, g, p.fates);
      }
    }
  }

  lemma VerifyIsSafe(s: State, b: Baseline, a: Answers, fates: seq<Fate>)
    requires Safe(s)
    ensures Safe(Verify(s, b, a, fates).state)
  {
    hide Exec, Then, Safe, Fold;
    var ops := CheckBaseline(s.visible, b);
    var o := Exec(s, ops, fates);
    ChecksAreSafe(s, ops, fates);
    CompletedMeans(s, ops, fates);
    CheckedBaseline(s, s.visible, b);
    if o.end == Completed && s.visible.Some? {
      RefusedUnlessVerifiable(s, b, fates);
      assert Backed(s, b) by { ClaimIsBacked(s, b); }
      var f1 := s.visible.value.(status := Verifying);
      var f2 := WithChannel(f1, a);
      ThenWrite(o, f1, b);
      var o1 := Then(o, Write(f1));
      OpenChannelIsSafe(o1, f1, a, b);
      var o2 := Then(o1, OpenChannel(f1, a));
      PublishIsSafe(o2, f2, a, b);
      AttestIsSafe(Then(o2, Publish(f2, a)), WithProbe(f2, a), b);
    }
  }

  lemma ClaimIsBacked(s: State, b: Baseline)
    requires Safe(s) && Verifiable(s.visible, b)
    ensures Backed(s, b)
  {
  }

  /** A verification of a file that is missing, unavailable or about another baseline is refused before any check. */
  lemma RefusedUnlessVerifiable(s: State, b: Baseline, fates: seq<Fate>)
    ensures Exec(s, CheckBaseline(s.visible, b), fates).end == Completed ==> Verifiable(s.visible, b)
    ensures !Verifiable(s.visible, b) ==> Exec(s, CheckBaseline(s.visible, b), fates).state == s
  {
  }

  // ---------- every history ----------

  /** In every sequence of restores, verifications, stops and power cuts, each cut or failing at any step: the
      state file vouches for a baseline only if the last restore that touched anything was of that baseline and ran
      to its end with all of it in place, it says verified only of a probe read back after every check, the relay
      never serves half-restored data, is never started before all four checks have passed, and no probe is sent
      that is not on record. */
  lemma {:induction false} AlwaysSafe(relay: bool, jobs: seq<Job>)
    ensures Safe(History(relay, jobs))
    decreases |jobs|
  {
    hide Safe, Restore, Verify, Exec;
    if jobs == [] {
      FreshIsSafe(relay);
    } else {
      var s := History(relay, jobs[..|jobs| - 1]);
      AlwaysSafe(relay, jobs[..|jobs| - 1]);
      match jobs[|jobs| - 1]
      case RestoreJob(b, fates) => RestoreIsSafe(s, b, fates);
      case VerifyJob(b, a, fates) => VerifyIsSafe(s, b, a, fates);
      case StopJob(fates) => StopIsSafe(s, fates);
      case PowerCut => CutIsSafe(s);
      case Flush => CutIsSafe(s);
    }
  }

  lemma FreshIsSafe(relay: bool)
    ensures Safe(Fresh(relay))
  {
  }

  lemma StopIsSafe(s: State, fates: seq<Fate>)
    requires Safe(s)
    ensures Safe(Exec(s, [StopAll], fates).state)
  {
    ExecOne(s, StopAll, fates);
  }

  lemma CutIsSafe(s: State)
    requires Safe(s)
    ensures Safe(Perform(s, PowerCut)) && Safe(Perform(s, Flush))
  {
  }

  // ---------- what a completed restore delivers ----------

  /** A restore without mishap, from end to end. */
  function WholeRestore(b: Baseline): seq<Op> {
    TakeDown(b) + (DROP_OLD + MAKE_NEW) + LoadDb(b) + LoadAsset(b, Media) + LoadAsset(b, Git) + BEFORE_RELAY + [StartRelay]
    + [AwaitRelay(b)] + Write(Up(b))
  }

  lemma {:induction false} CompletesExactlyWhen(s: State, ops: seq<Op>, fates: seq<Fate>)
    requires forall i :: 0 <= i < |ops| ==> !ops[i].Require?
    ensures Exec(s, ops, fates).end == Completed <==> |fates| >= |ops| && forall i :: 0 <= i < |ops| ==> fates[i].Done?
    decreases |ops|
  {
    if ops != [] && fates != [] {
      CompletesExactlyWhen(Apply(s, ops[0], fates[0]), ops[1..], fates[1..]);
      assert forall i :: 1 <= i < |fates| ==> fates[i] == fates[1..][i - 1];
    }
  }

  lemma RebuildInOneGo(s: State, b: Baseline, fates: seq<Fate>)
    ensures Then(Rebuild(Exec(s, TakeDown(b), fates), b), [StartRelay]) ==
      Exec(s, TakeDown(b) + (DROP_OLD + MAKE_NEW) + LoadDb(b) + LoadAsset(b, Media) + LoadAsset(b, Git) + BEFORE_RELAY + [StartRelay], fates)
  {
    hide Exec, Then, TakeDown, LoadDb, LoadAsset;
    var p1 := TakeDown(b) + (DROP_OLD + MAKE_NEW);
    var p2 := p1 + LoadDb(b);
    var p3 := p2 + LoadAsset(b, Media);
    var p4 := p3 + LoadAsset(b, Git);
    ExecTogether(s, TakeDown(b), (DROP_OLD + MAKE_NEW), fates);
    ExecTogether(s, p1, LoadDb(b), fates);
    ExecTogether(s, p2, LoadAsset(b, Media), fates);
    ExecTogether(s, p3, LoadAsset(b, Git), fates);
    ExecTogether(s, p4, BEFORE_RELAY, fates);
    ExecTogether(s, p4 + BEFORE_RELAY, [StartRelay], fates);
  }

  lemma RestoreInOneGo(s: State, b: Baseline, fates: seq<Fate>)
    ensures Restore(s, b, fates).end == Completed <==> Exec(s, WholeRestore(b), fates).end == Completed
  {
    hide Exec, TakeDown, LoadDb, LoadAsset, Rebuild, Write;
    var most := TakeDown(b) + (DROP_OLD + MAKE_NEW) + LoadDb(b) + LoadAsset(b, Media) + LoadAsset(b, Git) + BEFORE_RELAY + [StartRelay];
    RebuildInOneGo(s, b, fates);
    ExecTogether(s, most, [AwaitRelay(b)], fates);
    ExecTogether(s, most + [AwaitRelay(b)], Write(Up(b)), fates);
  }

  /** A restore completes exactly when each of its steps succeeds, and then both copies of the file say so, the
      relay runs, and everything of the baseline is in place. */
  lemma RestoreDelivers(s: State, b: Baseline, fates: seq<Fate>)
    requires Safe(s)
    ensures Restore(s, b, fates).end == Completed <==>
      |fates| >= |WholeRestore(b)| && forall i :: 0 <= i < |WholeRestore(b)| ==> fates[i].Done?
    ensures Restore(s, b, fates).end == Completed ==>
      var t := Restore(s, b, fates).state;
      && t.visible == Some(Up(b)) && t.durable == Some(Up(b)) && t.relay && t.data == WholeData(b) && t.last == Finished(b)
  {
    hide Exec, Safe, Rebuild, Settle;
    RestoreInOneGo(s, b, fates);
    CompletesExactlyWhen(s, WholeRestore(b), fates);
    if Restore(s, b, fates).end == Completed {
      TakeDownIsSafe(s, b, fates);
      var down := Exec(s, TakeDown(b), fates);
      RebuildIsSafe(down, b);
      var built := Rebuild(down, b);
      var exposed := Then(built, [StartRelay]);
      StartedMeans(built);
      SettledMeans(exposed, b);
      var settled := Settle(exposed, b);
      WriteMeans(settled.state, Up(b), settled.fates);
    }
  }

  lemma StartedMeans(o: Outcome)
    ensures var p := Then(o, [StartRelay]); p.end == Completed ==>
      o.end == Completed && p.state.relay && p.state.data == o.state.data
  {
    hide Exec;
    if o.end == Completed {
      ExecOne(o.state, StartRelay, o.fates);
    }
  }

  lemma SettledMeans(o: Outcome, b: Baseline)
    ensures var p := Settle(o, b); p.end == Completed ==>
      o.end == Completed && p.state == o.state.(last := Finished(b))
  {
    hide Exec;
    if o.end == Completed {
      ExecOne(o.state, AwaitRelay(b), o.fates);
    }
  }

  /** A relay that does not become ready is stopped, or the state file says that it could not be: when the wait raises, a stop
      that succeeds leaves the relay down, and a stop that raises is followed by a note in both copies of the file. */
  lemma UnreadyRelayIsStopped(s: State, b: Baseline, fates: seq<Fate>)
    requires |fates| >= 2 && fates[0].Raised?
    ensures
      var p := Settle(Outcome(Completed, s, fates), b);
      && p.end != Completed && p.state.last == s.last
      && (fates[1].Done? ==> !p.state.relay && p.state.visible == s.visible && p.state.durable == s.durable)
      && (fates[1].Raised? && |fates| >= 4 && fates[2].Done? && fates[3].Done? ==>
            && p.state.visible.Some? && p.state.durable == p.state.visible
            && p.state.visible.value.stopFailed && p.state.visible.value.status == Unavailable && p.state.visible.value.baseline == b)
  {
    hide Exec;
    ExecOne(s, AwaitRelay(b), fates);
    ExecOne(s, StopRelay, fates[1..]);
    var stop := Exec(s, [StopRelay], fates[1..]);
    var f := Down(b, true);
    WriteMeans(stop.state, f, stop.fates);
    CompletesExactlyWhen(stop.state, Write(f), stop.fates);
    assert |fates| >= 4 ==> stop.fates[0] == fates[2] && stop.fates[1] == fates[3];
  }

  lemma AttestedMeans(o: Outcome, f: File)
    requires f.channel.Some? && f.event.Some?
    ensures var p := Then(o, Attest(f)); p.end == Completed ==>
      p.state.visible == Some(f.(status := ServerVerified)) && p.state.durable == p.state.visible
  {
    hide Exec, Write;
    if o.end == Completed {
      if f.content.None? {
        ExecOne(o.state, Require(false), o.fates);
      } else {
        var probe := Probe(f.channel.value, f.event.value, f.content.value);
        var ops, g := [Require(true), ReadBack(probe), Sentinel], f.(status := ServerVerified);
        assert Attest(f) == ops + Write(g) by { WriteIs(g); }
        ExecTogether(o.state, ops, Write(g), o.fates);
        var p := Exec(o.state, ops, o.fates);
        WriteMeans(p.state, g, p.fates);
      }
    }
  }

  /** A completed verification leaves both copies of the file saying verified, with the probe an earlier attempt
      put on record if there was one. */
  lemma VerifyDelivers(s: State, b: Baseline, a: Answers, fates: seq<Fate>)
    ensures var o := Verify(s, b, a, fates); o.end == Completed ==>
      && Verifiable(s.visible, b)
      && o.state.visible == o.state.durable && Verifiable(o.state.visible, b) && o.state.visible.value.status == ServerVerified
      && (Present(s.visible.value.channel) ==> o.state.visible.value.channel == s.visible.value.channel)
      && (Present(s.visible.value.content) ==> o.state.visible.value.content == s.visible.value.content)
      && (Present(s.visible.value.event) ==> o.state.visible.value.event == s.visible.value.event)
  {
    hide Exec, Then, Attest, Publish, OpenChannel, Write, CheckBaseline;
    RefusedUnlessVerifiable(s, b, fates);
    if s.visible.Some? {
      var f1 := s.visible.value.(status := Verifying);
      var f2 := WithChannel(f1, a);
      var o := Then(Then(Exec(s, CheckBaseline(s.visible, b), fates), Write(f1)), OpenChannel(f1, a));
      AttestedMeans(Then(o, Publish(f2, a)), WithProbe(f2, a));
    }
  }

  // ---------- when a restore begins to count ----------

  lemma {:induction false} InnerKeepsFile(s: State, ops: seq<Op>, fates: seq<Fate>)
    requires forall i :: 0 <= i < |ops| ==> Inner(ops[i])
    ensures Exec(s, ops, fates).state.durable == s.durable
    decreases |ops|
  {
    if ops != [] && fates != [] {
      assert Inner(ops[0]);
      InnerKeepsFile(Apply(s, ops[0], fates[0]), ops[1..], fates[1..]);
    }
  }

  lemma ThenKeepsFile(o: Outcome, ops: seq<Op>)
    requires forall i :: 0 <= i < |ops| ==> Inner(ops[i])
    ensures Then(o, ops).state.durable == o.state.durable
  {
    hide Exec;
    if o.end == Completed {
      InnerKeepsFile(o.state, ops, o.fates);
    }
  }

  lemma RebuildKeepsFile(o: Outcome, b: Baseline)
    ensures Rebuild(o, b).state.durable == o.state.durable
  {
    hide Then;
    var o1 := Then(o, (DROP_OLD + MAKE_NEW));
    var o2 := Then(o1, LoadDb(b));
    var o3 := Then(o2, LoadAsset(b, Media));
    var o4 := Then(o3, LoadAsset(b, Git));
    ThenKeepsFile(o, (DROP_OLD + MAKE_NEW));
    ThenKeepsFile(o1, LoadDb(b));
    ThenKeepsFile(o2, LoadAsset(b, Media));
    ThenKeepsFile(o3, LoadAsset(b, Git));
    ThenKeepsFile(o4, BEFORE_RELAY);
  }

  predicate Names(f: Option<File>, b: Baseline) {
    f.Some? && f.value.baseline == b
  }

  lemma SettleKeepsName(o: Outcome, b: Baseline)
    requires Names(o.state.durable, b)
    ensures Names(Settle(o, b).state.durable, b)
  {
    hide Exec;
    if o.end == Completed {
      ExecOne(o.state, AwaitRelay(b), o.fates);
      var ready := Exec(o.state, [AwaitRelay(b)], o.fates);
      ExecOne(ready.state, StopRelay, ready.fates);
      var stop := Exec(ready.state, [StopRelay], ready.fates);
      WriteMeans(stop.state, Down(b, true), stop.fates);
    }
  }

  /** The first write of a restore is its point of no return. */
  predicate Committed(fates: seq<Fate>) {
    |fates| >= 2 && fates[0].Done? && Hit(fates[1])
  }

  lemma TakeDownMeans(s: State, b: Baseline, fates: seq<Fate>)
    ensures var o := Exec(s, TakeDown(b), fates);
      if Committed(fates) then o.state.durable == Some(Down(b, false))
      else o.end != Completed && o.state == s.(visible := o.state.visible) && o.state.visible in {s.visible, Some(Down(b, false))}
  {
    hide Exec;
    var f := Down(b, false);
    var p, q, r := [Replace(f)], [SyncDir], [StopForRestore(b)];
    assert TakeDown(b) == p + (q + r);
    ExecTogether(s, p, q + r, fates);
    ExecOne(s, p[0], fates);
    var o := Exec(s, p, fates);
    ThenTogether(o, q, r);
    ExecOne(o.state, q[0], o.fates);
    var o1 := Then(o, q);
    ExecOne(o1.state, r[0], o1.fates);
  }

  /** A restore changes what a power cut would leave exactly when its first write reached the disk: from then on
      only its own baseline is named, and before that nothing but the visible copy of the file has changed. */
  lemma RestoreCommitsAtItsFirstWrite(s: State, b: Baseline, fates: seq<Fate>)
    ensures var t := Restore(s, b, fates).state;
      && (Committed(fates) ==> Names(t.durable, b))
      && (!Committed(fates) ==> t == s.(visible := t.visible) && t.visible in {s.visible, Some(Down(b, false))})
  {
    hide Exec, Rebuild, Settle, Write;
    TakeDownMeans(s, b, fates);
    var down := Exec(s, TakeDown(b), fates);
    RebuildKeepsFile(down, b);
    var built := Rebuild(down, b);
    ExecOne(built.state, StartRelay, built.fates);
    var exposed := Then(built, [StartRelay]);
    if Committed(fates) {
      SettleKeepsName(exposed, b);
      var settled := Settle(exposed, b);
      WriteMeans(settled.state, Up(b), settled.fates);
    } else {
      StuckStays(down, b);
    }
  }

  /** After a step that did not succeed no later one is taken. */
  lemma StuckStays(o: Outcome, b: Baseline)
    requires o.end != Completed
    ensures Rebuild(o, b) == o && Settle(o, b) == o
  {
  }

  lemma NoFates(s: State, ops: seq<Op>)
    requires ops != []
    ensures Exec(s, ops, []) == Outcome(Cut, s, [])
  {
  }

  /** So a restore that was merely begun may be forgotten: cut between its first two steps, then a power cut, and
      the file vouches again for the older baseline, whose data is indeed still there. */
  lemma UncommittedRestoreIsForgotten(s: State, b: Baseline)
    requires Safe(s) && Claims(s.durable) && s.durable.value.baseline != b
    ensures var cut := Restore(s, b, [Done]).state;
      && cut.visible == Some(Down(b, false))
      && Perform(cut, PowerCut).visible == s.durable && Claims(Perform(cut, PowerCut).visible)
      && Perform(cut, PowerCut).data == WholeData(s.durable.value.baseline)
  {
    hide Exec, Rebuild, Settle;
    var f := Down(b, false);
    var p, q := [Replace(f)], [SyncDir, StopForRestore(b)];
    assert TakeDown(b) == p + q;
    ExecTogether(s, p, q, [Done]);
    ExecOne(s, p[0], [Done]);
    assert [Done][1..] == [];
    NoFates(s.(visible := Some(f)), q);
    var o := Exec(s, TakeDown(b), [Done]);
    assert o == Outcome(Cut, s.(visible := Some(Down(b, false))), []);
    StuckStays(o, b);
  }
}
