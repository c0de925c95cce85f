/** The programs themselves, acting on the server step by step. */
module StagingPrograms {
  import opened Options
  import opened Staging
  import opened StagingSafety

  class StagingHost {
    var now: State
    var fates: seq<Fate>

    constructor (relay: bool)
      ensures now == Fresh(relay) && Safe(now)
    {
      now, fates := Fresh(relay), [];
    }

    /** One step of a program, here the `k`-th of `ops`. */
    method Step(op: Op, ghost ops: seq<Op>, ghost k: nat) returns (end: End)
      requires k < |ops| && ops[k] == op
      modifies this
      ensures Exec(old(now), ops[k..], old(fates)) ==
        if end == Completed then Exec(now, ops[k + 1..], fates) else Outcome(end, now, fates)
    {
      assert ops[k..][0] == op && ops[k..][1..] == ops[k + 1..];
      if fates == [] {
        return Cut;
      }
      var f := fates[0];
      now, fates := Apply(now, op, f), fates[1..];
      end := EndOf(op, f);
    }

    method Single(op: Op) returns (end: End)
      modifies this
      ensures Outcome(end, now, fates) == Exec(old(now), [op], old(fates))
    {
      hide Exec;
      assert [op][0..] == [op] && [op][1..] == [];
      end := Step(op, [op], 0);
      if end == Completed { ExecNone(now, fates); }
    }

    /** Three steps in a row, each taken only if the one before succeeded. */
    method Three(a: Op, b: Op, c: Op) returns (end: End)
      modifies this
      ensures Outcome(end, now, fates) == Exec(old(now), [a, b, c], old(fates))
    {
      hide Exec;
      ghost var ops := [a, b, c];
      assert ops[0..] == ops && ops[3..] == [];
      end := Step(a, ops, 0);
      if end != Completed { return; }
      end := Step(b, ops, 1);
      if end != Completed { return; }
      end := Step(c, ops, 2);
      if end == Completed { ExecNone(now, fates); }
    }

    /** Replace the state file, then sync the directory: wherever it is cut, each copy is the old version or the new. */
    method WriteJson(file: File) returns (end: End)
      modifies this
      ensures Outcome(end, now, fates) == Exec(old(now), Write(file), old(fates))
      ensures now == old(now).(visible := now.visible, durable := now.durable)
      ensures now.visible in {old(now).visible, Some(file)} && now.durable in {old(now).durable, Some(file)}
      ensures end == Completed ==> now.visible == Some(file) && now.durable == Some(file)
    {
      hide Exec;
      ghost var ops := Write(file);
      assert ops[0..] == ops && ops[2..] == [];
      WriteMeans(now, file, fates);
      end := Step(Replace(file), ops, 0);
      if end != Completed { return; }
      end := Step(SyncDir, ops, 1);
      if end == Completed { ExecNone(now, fates); }
    }

    /** Drop the database and make it anew. */
    method RecreateDatabase() returns (end: End)
      modifies this
      ensures Outcome(end, now, fates) == Exec(old(now), DROP_OLD + MAKE_NEW, old(fates))
    {
      hide Exec;
      ExecTogether(now, DROP_OLD, MAKE_NEW, fates);
      end := Three(Do(StartPostgres), Do(AwaitPostgres), DropDb);
      if end != Completed { return; }
      end := Three(CreateDb, Do(RevokeConnect), Do(CopyDump));
    }

    /** Load the stages in their order, then check the events and that nothing in the database can run. */
    method LoadDatabase(b: Baseline) returns (end: End)
      modifies this
      ensures Outcome(end, now, fates) == Exec(old(now), LoadDb(b), old(fates))
      ensures end == Completed && old(now).data.db == Built([]) ==>
        now.data.db == WholeData(b).db && {Events, ExecutableState} <= now.passed
    {
      hide Exec, Fold;
      CompletedMeans(now, LoadDb(b), fates);
      if now.data.db == Built([]) { LoadedDb(now, b); }
      ExecTogether(now, LoadSchema(b), LoadRows(b) + MigrateAndCheck(b), fates);
      end := Three(Load(b, PreData), Load(b, Communities), Do(CheckUserSnapshot));
      if end != Completed { return; }
      ExecTogether(now, LoadRows(b), MigrateAndCheck(b), fates);
      end := Three(Load(b, Users), Load(b, Rows), Load(b, PostData));
      if end != Completed { return; }
      end := Three(Load(b, Migrations), Pass(Events), Pass(ExecutableState));
    }

    /** Everything before the relay may be started again: what completes has all of the baseline and all four checks. */
    method RebuildAll(b: Baseline) returns (end: End)
      modifies this
      ensures Outcome(end, now, fates) == Rebuild(Outcome(Completed, old(now), old(fates)), b)
      ensures end == Completed && Safe(old(now)) && NoClaims(old(now)) && !old(now).relay && old(now).passed == {} ==>
        now.data == WholeData(b) && now.passed == RESTORE_CHECKS
    {
      hide Exec, LoadDb, Safe, NoClaims;
      if Safe(now) && NoClaims(now) && !now.relay && now.passed == {} {
        RebuildIsSafe(Outcome(Completed, now, fates), b);
      }
      end := RecreateDatabase();
      if end != Completed { return; }
      end := LoadDatabase(b);
      if end != Completed { return; }
      end := Three(Clear(Media), Do(CopyArchive), Unpack(b, Media));
      if end != Completed { return; }
      end := Three(Clear(Git), Do(CopyArchive), Unpack(b, Git));
      if end != Completed { return; }
      ExecTogether(now, READ_BACK, [Pass(Ownership)], fates);
      end := Three(Pass(Assets), Do(StartRedisAndMedia), Do(FlushRedis));
      if end != Completed { return; }
      end := Single(Pass(Ownership));
    }

    method AwaitOrStop(b: Baseline) returns (end: End)
      modifies this
      ensures Outcome(end, now, fates) == Settle(Outcome(Completed, old(now), old(fates)), b)
    {
      hide Exec;
      end := Single(AwaitRelay(b));
      if end == Failed {
        var stop := Single(StopRelay);
        if stop == Cut { return Cut; }
        if stop == Failed {
          var noted := WriteJson(Down(b, true));
          if noted == Cut { return Cut; }
        }
        return Failed;
      }
    }

    /** Restore a baseline under the operation lock, the outcomes of the steps being `script`. Wherever it stops, the
        server stays safe; if it completes, the file says so and the relay serves the whole baseline. */
    method RestoreLocked(b: Baseline, script: seq<Fate>) returns (end: End)
      modifies this
      ensures Outcome(end, now, fates) == Restore(old(now), b, script)
      ensures Safe(old(now)) ==> Safe(now)
      ensures Safe(old(now)) && end == Completed ==>
        now.visible == Some(Up(b)) && now.durable == Some(Up(b)) && now.relay && now.data == WholeData(b)
    {
      hide Exec, Rebuild, Settle, Safe;
      if Safe(now) {
        RestoreIsSafe(now, b, script);
        RestoreDelivers(now, b, script);
      }
      StuckAll(b);
      fates := script;
      end := Three(Replace(Down(b, false)), SyncDir, StopForRestore(b));
      if end != Completed { return; }
      end := RebuildAll(b);
      if end != Completed { return; }
      end := Single(StartRelay);
      if end != Completed { return; }
      end := AwaitOrStop(b);
      if end != Completed { return; }
      end := WriteJson(Up(b));
    }

    /** Use the recorded probe channel, or create one and record it. */
    method EnsureChannel(state: File, a: Answers) returns (end: End, updated: File)
      modifies this
      ensures Outcome(end, now, fates) == Exec(old(now), OpenChannel(state, a), old(fates))
      ensures end == Completed ==> updated == WithChannel(state, a)
    {
      hide Exec;
      updated := state;
      ghost var ops := OpenChannel(state, a);
      if Present(state.channel) {
        ExecNone(now, fates);
        return Completed, updated;
      }
      assert ops[0..] == ops && ops[3..] == [];
      end := Step(Do(CreateChannel), ops, 0);
      if end != Completed { return; }
      updated := updated.(channel := Some(a.channel));
      end := Step(Replace(updated), ops, 1);
      if end != Completed { return; }
      end := Step(SyncDir, ops, 2);
      if end == Completed { ExecNone(now, fates); }
    }

    /** Use the recorded probe message, or record its text, send it and record its id. */
    method EnsureProbe(state: File, a: Answers) returns (end: End, updated: File)
      requires state.channel.Some?
      modifies this
      ensures Outcome(end, now, fates) == Exec(old(now), Publish(state, a), old(fates))
      ensures end == Completed ==> updated == WithProbe(state, a)
    {
      hide Exec;
      updated := state;
      ghost var ops := Publish(state, a);
      if Present(state.event) {
        ExecNone(now, fates);
        return Completed, updated;
      }
      assert ops[0..] == ops && ops[5..] == [];
      updated := if Present(state.content) then updated else updated.(content := Some(a.content));
      end := Step(Replace(updated), ops, 0);
      if end != Completed { return; }
      end := Step(SyncDir, ops, 1);
      if end != Completed { return; }
      end := Step(SendProbe(updated.channel.value, updated.content.value), ops, 2);
      if end != Completed { return; }
      updated := updated.(event := Some(a.event));
      end := Step(Replace(updated), ops, 3);
      if end != Completed { return; }
      end := Step(SyncDir, ops, 4);
      if end == Completed { ExecNone(now, fates); }
    }

    /** Read the probe back, look at the source once more, and only then say verified. */
    method ReadBackAndAttest(state: File) returns (end: End)
      requires state.channel.Some? && state.event.Some?
      modifies this
      ensures Outcome(end, now, fates) == Exec(old(now), Attest(state), old(fates))
    {
      hide Exec;
      ghost var ops := Attest(state);
      assert ops[0..] == ops;
      if state.content.None? {
        end := Single(Require(false));
        return;
      }
      assert ops[5..] == [];
      end := Step(Require(true), ops, 0);
      if end != Completed { return; }
      end := Step(ReadBack(Probe(state.channel.value, state.event.value, state.content.value)), ops, 1);
      if end != Completed { return; }
      end := Step(Sentinel, ops, 2);
      if end != Completed { return; }
      end := Step(Replace(state.(status := ServerVerified)), ops, 3);
      if end != Completed { return; }
      end := Step(SyncDir, ops, 4);
      if end == Completed { ExecNone(now, fates); }
    }

    /** Verify the baseline the state file vouches for, resuming a probe an earlier attempt left on record. Wherever it
        stops, the server stays safe; if it completes, both copies of the file say verified for that baseline. */
    method VerifyLocked(b: Baseline, a: Answers, script: seq<Fate>) returns (end: End)
      modifies this
      ensures Outcome(end, now, fates) == Verify(old(now), b, a, script)
      ensures Safe(old(now)) ==> Safe(now)
      ensures end == Completed ==>
        && Verifiable(old(now).visible, b) && Verifiable(now.visible, b)
        && now.visible.value.status == ServerVerified && now.durable == now.visible
    {
      hide Exec, Write, OpenChannel, Publish, Attest, Safe;
      if Safe(now) {
        VerifyIsSafe(now, b, a, script);
      }
      VerifyDelivers(now, b, a, script);
      fates := script;
      var loaded := now.visible;
      ExecTogether(now, CheckTarget(loaded, b), CHECK_SERVICE, fates);
      end := Three(Require(Verifiable(loaded, b)), Pass(StillOwned), Pass(ServicesRunning));
      if end != Completed { return; }
      end := Three(Pass(BatchesReadBack), Pass(RelayReady), Pass(ProbeTool));
      if end != Completed || loaded.None? { return; }
      var state := loaded.value.(status := Verifying);
      end := WriteJson(state);
      if end != Completed { return; }
      end, state := EnsureChannel(state, a);
      if end != Completed { return; }
      end, state := EnsureProbe(state, a);
      if end != Completed { return; }
      end := ReadBackAndAttest(state);
    }

    /** Stop everything: the file is left alone, and the server stays safe. */
    method Stop(script: seq<Fate>) returns (end: End)
      modifies this
      ensures now == Perform(old(now), StopJob(script))
      ensures Safe(old(now)) ==> Safe(now)
      ensures now.visible == old(now).visible && now.durable == old(now).durable && now.data == old(now).data
      ensures end == Completed ==> !now.relay
    {
      hide Exec, Safe;
      if Safe(now) {
        StopIsSafe(now, script);
      }
      ExecOne(now, StopAll, script);
      fates := script;
      end := Single(StopAll);
    }
  }

  /** After a step that did not succeed no later one is taken. */
  lemma StuckAll(b: Baseline)
    ensures forall o: Outcome :: o.end != Completed ==> Rebuild(o, b) == o && Settle(o, b) == o
  {
  }
}
