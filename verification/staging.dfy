/** The staging server as a machine of steps, any of which may fail, half-happen or be cut off. */
module Staging {
  import opened Options

  type Baseline = string

  datatype Status = Unavailable | RestoredUnverified | Verifying | ServerVerified

  /** The state file. */
  datatype File = File(
    status: Status, baseline: Baseline, stopFailed: bool,
    channel: Option<string>, content: Option<string>, event: Option<string>)

  datatype Stage = PreData | Communities | Users | Rows | PostData | Migrations

  datatype Database = UnknownDb | Dropped | TornDb | Built(done: seq<(Baseline, Stage)>)

  datatype Tree = UnknownTree | Empty | TornTree | Holds(baseline: Baseline)

  datatype Data = Data(db: Database, media: Tree, git: Tree)

  const UNTOUCHED: Data := Data(UnknownDb, UnknownTree, UnknownTree)

  /** Every part of the baseline is in place: each stage once and in order in a database made anew, both asset
      trees unpacked into emptied volumes. */
  function WholeData(b: Baseline): Data {
    Data(
      Built([(b, PreData), (b, Communities), (b, Users), (b, Rows), (b, PostData), (b, Migrations)]),
      Holds(b), Holds(b))
  }

  datatype Check =
    // of a restore
    | Events | ExecutableState | Assets | Ownership
    // of a verification
    | StillOwned | ServicesRunning | BatchesReadBack | RelayReady | ProbeTool

  const RESTORE_CHECKS: set<Check> := {Events, ExecutableState, Assets, Ownership}
  const VERIFY_CHECKS: set<Check> := {StillOwned, ServicesRunning, BatchesReadBack, RelayReady, ProbeTool}

  /** How far the last restore that got past its first state write has come. */
  datatype Last = Never | Underway(baseline: Baseline) | Finished(baseline: Baseline)

  datatype Probe = Probe(channel: string, event: string, content: string)

  /** What held when the relay was started, and what was on disk when a probe message went out. */
  datatype Start = Start(passed: set<Check>, data: Data)
  datatype Send = Send(channel: string, content: string, recorded: Option<File>)

  /** The machine. `visible` is the state file as programs read it, `durable` what a power cut would leave; `passed`
      holds the checks that have passed since the relay was last stopped and still speak of the present data. */
  datatype State = State(
    visible: Option<File>, durable: Option<File>, relay: bool, data: Data,
    last: Last, passed: set<Check>, starts: seq<Start>,
    read: Option<Probe>, attested: set<Probe>, sends: seq<Send>)

  datatype Chore =
    | StartPostgres | AwaitPostgres | RevokeConnect | CopyDump | CheckUserSnapshot
    | CopyArchive | StartRedisAndMedia | FlushRedis | CreateChannel

  datatype Asset = Media | Git

  datatype Op =
    | Replace(file: File)
    | SyncDir
    | Require(ok: bool)
    | Do(chore: Chore)
    | StopForRestore(baseline: Baseline)
    | StopRelay
    | StopAll
    | DropDb
    | CreateDb
    | Load(loading: Baseline, stage: Stage)
    | Clear(tree: Asset)
    | Unpack(unpacking: Baseline, into: Asset)
    | Pass(check: Check)
    | StartRelay
    | AwaitRelay(awaiting: Baseline)
    | SendProbe(channel: string, content: string)
    | ReadBack(probe: Probe)
    | Sentinel

  /** A step succeeds, raises, or is cut off with the program; in the last two cases its effect may or may not
      have happened, in part or in whole. */
  datatype Fate = Done | Raised(hit: bool) | Killed(hit: bool)

  predicate Hit(f: Fate) {
    f.Done? || f.hit
  }

  function DbAfter(was: Database, goal: Database, f: Fate): Database {
    if f.Done? then goal else if f.hit then TornDb else was
  }

  function TreeAfter(was: Tree, goal: Tree, f: Fate): Tree {
    if f.Done? then goal else if f.hit then TornTree else was
  }

  function SetDb(s: State, goal: Database, f: Fate): State {
    s.(data := s.data.(db := DbAfter(s.data.db, goal, f)), passed := s.passed - {Events, ExecutableState})
  }

  function TreeOf(d: Data, a: Asset): Tree {
    match a case Media => d.media case Git => d.git
  }

  function SetTree(s: State, a: Asset, goal: Tree, f: Fate): State {
    var t := TreeAfter(TreeOf(s.data, a), goal, f);
    s.(data := (match a case Media => s.data.(media := t) case Git => s.data.(git := t)), passed := s.passed - {Assets})
  }

  function Stopped(s: State): State {
    s.(relay := false, passed := {})
  }

  function Passed(s: State, c: Check): State {
    s.(passed := (if c == StillOwned then s.passed - VERIFY_CHECKS else s.passed) + {c})
  }

  function Apply(s: State, op: Op, f: Fate): State {
    match op
    case Replace(file) => if Hit(f) then s.(visible := Some(file)) else s
    case SyncDir => if Hit(f) then s.(durable := s.visible) else s
    case Require(_) => s
    case Do(_) => s
    case StopForRestore(b) =>
      var begun := s.(last := Underway(b), read := None, attested := {});
      if Hit(f) then Stopped(begun) else begun
    case StopRelay => if Hit(f) then Stopped(s) else s
    case StopAll => if Hit(f) then Stopped(s) else s
    case DropDb => SetDb(s, Dropped, f)
    case CreateDb => SetDb(s, if s.data.db == Dropped then Built([]) else TornDb, f)
    case Load(b, stage) => SetDb(s, if s.data.db.Built? then Built(s.data.db.done + [(b, stage)]) else TornDb, f)
    case Clear(a) => SetTree(s, a, Empty, f)
    case Unpack(b, a) => SetTree(s, a, if TreeOf(s.data, a) == Empty then Holds(b) else TornTree, f)
    case Pass(c) => if f.Done? then Passed(s, c) else s
    case StartRelay =>
      if Hit(f) then s.(relay := true, starts := s.starts + [Start(s.passed, s.data)]) else s
    case AwaitRelay(b) => if f.Done? then s.(last := Finished(b)) else s
    case SendProbe(channel, content) =>
      if Hit(f) then s.(sends := s.sends + [Send(channel, content, s.durable)]) else s
    case ReadBack(probe) => if f.Done? then s.(read := Some(probe)) else s
    case Sentinel =>
      if f.Done? && s.read.Some? && VERIFY_CHECKS <= s.passed then s.(attested := s.attested + {s.read.value}) else s
  }

  datatype End = Completed | Failed | Cut

  datatype Outcome = Outcome(end: End, state: State, fates: seq<Fate>)

  function EndOf(op: Op, f: Fate): End {
    if op.Require? then (if op.ok then Completed else Failed)
    else match f case Done => Completed case Raised(_) => Failed case Killed(_) => Cut
  }

  /** Run steps in order until one does not succeed. Where the script ends, the program is cut off. */
  function Exec(s: State, ops: seq<Op>, fates: seq<Fate>): Outcome
    decreases |ops|
  {
    if ops == [] then Outcome(Completed, s, fates)
    else if fates == [] then Outcome(Cut, s, [])
    else
      var next := Apply(s, ops[0], fates[0]);
      var end := EndOf(ops[0], fates[0]);
      if end == Completed then Exec(next, ops[1..], fates[1..]) else Outcome(end, next, fates[1..])
  }

  function Then(o: Outcome, ops: seq<Op>): Outcome {
    if o.end == Completed then Exec(o.state, ops, o.fates) else o
  }

  // ---------- restoring ----------

  function Down(b: Baseline, stopFailed: bool): File {
    File(Unavailable, b, stopFailed, None, None, None)
  }

  function Up(b: Baseline): File {
    File(RestoredUnverified, b, false, None, None, None)
  }

  function Write(f: File): seq<Op> {
    [Replace(f), SyncDir]
  }

  function TakeDown(b: Baseline): seq<Op> {
    [Replace(Down(b, false)), SyncDir, StopForRestore(b)]
  }

  const DROP_OLD: seq<Op> := [Do(StartPostgres), Do(AwaitPostgres), DropDb]
  const MAKE_NEW: seq<Op> := [CreateDb, Do(RevokeConnect), Do(CopyDump)]

  function LoadSchema(b: Baseline): seq<Op> {
    [Load(b, PreData), Load(b, Communities), Do(CheckUserSnapshot)]
  }

  function LoadRows(b: Baseline): seq<Op> {
    [Load(b, Users), Load(b, Rows), Load(b, PostData)]
  }

  function MigrateAndCheck(b: Baseline): seq<Op> {
    [Load(b, Migrations), Pass(Events), Pass(ExecutableState)]
  }

  function LoadDb(b: Baseline): seq<Op> {
    LoadSchema(b) + (LoadRows(b) + MigrateAndCheck(b))
  }

  function LoadAsset(b: Baseline, a: Asset): seq<Op> {
    [Clear(a), Do(CopyArchive), Unpack(b, a)]
  }

  const READ_BACK: seq<Op> := [Pass(Assets), Do(StartRedisAndMedia), Do(FlushRedis)]
  const BEFORE_RELAY: seq<Op> := READ_BACK + [Pass(Ownership)]

  /** Everything up to the step that exposes the restored data. */
  function Rebuild(o: Outcome, b: Baseline): Outcome {
    Then(Then(Then(Then(Then(o, DROP_OLD + MAKE_NEW), LoadDb(b)), LoadAsset(b, Media)), LoadAsset(b, Git)), BEFORE_RELAY)
  }

  /** Await the relay; if that raises, stop it again and, if that raises too, say so in the state file. */
  function Settle(o: Outcome, b: Baseline): Outcome {
    if o.end != Completed then o
    else
      var ready := Exec(o.state, [AwaitRelay(b)], o.fates);
      if ready.end != Failed then ready
      else
        var stop := Exec(ready.state, [StopRelay], ready.fates);
        if stop.end == Completed then stop.(end := Failed)
        else if stop.end == Cut then stop
        else
          var noted := Exec(stop.state, Write(Down(b, true)), stop.fates);
          if noted.end == Completed then noted.(end := Failed) else noted
  }

  function Restore(s: State, b: Baseline, fates: seq<Fate>): Outcome {
    Then(Settle(Then(Rebuild(Exec(s, TakeDown(b), fates), b), [StartRelay]), b), Write(Up(b)))
  }

  // ---------- verifying ----------

  /** What the outside world hands a verification. */
  datatype Answers = Answers(channel: string, content: string, event: string)

  predicate Present(o: Option<string>) {
    o.Some? && o.value != ""
  }

  predicate Verifiable(f: Option<File>, b: Baseline) {
    f.Some? && f.value.baseline == b && f.value.status != Unavailable
  }

  function WithChannel(f: File, a: Answers): File {
    if Present(f.channel) then f else f.(channel := Some(a.channel))
  }

  function WithContent(f: File, a: Answers): File {
    if Present(f.content) then f else f.(content := Some(a.content))
  }

  function CheckTarget(f: Option<File>, b: Baseline): seq<Op> {
    [Require(Verifiable(f, b)), Pass(StillOwned), Pass(ServicesRunning)]
  }

  const CHECK_SERVICE: seq<Op> := [Pass(BatchesReadBack), Pass(RelayReady), Pass(ProbeTool)]

  function CheckBaseline(f: Option<File>, b: Baseline): seq<Op> {
    CheckTarget(f, b) + CHECK_SERVICE
  }

  function OpenChannel(f: File, a: Answers): seq<Op> {
    if Present(f.channel) then [] else [Do(CreateChannel), Replace(WithChannel(f, a)), SyncDir]
  }

  function Publish(f: File, a: Answers): seq<Op>
    requires f.channel.Some?
  {
    if Present(f.event) then []
    else
      var g := WithContent(f, a);
      [Replace(g), SyncDir, SendProbe(g.channel.value, g.content.value), Replace(g.(event := Some(a.event))), SyncDir]
  }

  function WithProbe(f: File, a: Answers): File {
    if Present(f.event) then f else WithContent(f, a).(event := Some(a.event))
  }

  function Attest(f: File): seq<Op>
    requires f.channel.Some? && f.event.Some?
  {
    if f.content.None? then [Require(false)]
    else
      [Require(true), ReadBack(Probe(f.channel.value, f.event.value, f.content.value)), Sentinel,
       Replace(f.(status := ServerVerified)), SyncDir]
  }

  function Verify(s: State, b: Baseline, a: Answers, fates: seq<Fate>): Outcome {
    var checked := Exec(s, CheckBaseline(s.visible, b), fates);
    if checked.end != Completed || s.visible.None? then checked
    else
      var f1 := s.visible.value.(status := Verifying);
      var f2 := WithChannel(f1, a);
      var f4 := WithProbe(f2, a);
      Then(Then(Then(Then(checked, Write(f1)), OpenChannel(f1, a)), Publish(f2, a)), Attest(f4))
  }

  // ---------- whole histories ----------

  /** One lock-serialised operation, or something that happens to the machine between two. */
  datatype Job =
    | RestoreJob(baseline: Baseline, fates: seq<Fate>)
    | VerifyJob(baseline: Baseline, answers: Answers, fates: seq<Fate>)
    | StopJob(fates: seq<Fate>)
    | PowerCut
    | Flush

  function Perform(s: State, j: Job): State {
    match j
    case RestoreJob(b, fates) => Restore(s, b, fates).state
    case VerifyJob(b, a, fates) => Verify(s, b, a, fates).state
    case StopJob(fates) => Exec(s, [StopAll], fates).state
    case PowerCut => Stopped(s).(visible := s.durable)
    case Flush => s.(durable := s.visible)
  }

  /** A server nobody has restored yet, its relay running or not. */
  function Fresh(relay: bool): State {
    State(None, None, relay, UNTOUCHED, Never, {}, [], None, {}, [])
  }

  function History(relay: bool, jobs: seq<Job>): State {
    if jobs == [] then Fresh(relay) else Perform(History(relay, jobs[..|jobs| - 1]), jobs[|jobs| - 1])
  }
}
