/** The crash-resumable pipeline as a state machine over its effects (`pipeline_run.py`, the watchdog's rewrite). */
module PipelineMachine {
  import opened Common
  import opened Json
  import opened PipelineState
  import opened StageSessions

  const MAX_CI_FIX_ROUNDS := 2

  datatype Outcome = Ok | Partial | Failed

  /** Where the process of the current launch stands. */
  datatype Pc =
    | Idle                                // no launch yet
    | Between                             // between two stages
    | Started(stage: int)
    | Recorded(stage: int)                // the agent's session id is on disk, the state not re-read yet
    | Settled(stage: int)                 // the stage's work is done, its gate not yet judged
    | Passed(stage: int)
    | Red(round: nat, code: int) | Fixed(round: nat) | Green   // stage 5: the CI check and its fix rounds
    | Kept | Flipped | Clear              // stage 5: named tests kept, issue done (checked twice)
    | Pushed | Opened(number: int)
    | Aborting                            // a verdict failed
    | Reported(outcome: Outcome)

  /** What a process does that lasts, and the verdicts it depends on. A crash needs no event: any prefix of a run is
      a run, and the next launch may follow at any point. */
  datatype Event =
    | Launch
    | Rewrite(deadline: int, count: int, at: string)    // the watchdog, before a resume
    | Start(now: int)
    | RecordBase(stage: int, head: string)
    | RecordSession(stage: int, id: string)
    | Reread
    | CiCheck(code: int)
    | FixRound(now: int)
    | NamedTests(removed: bool)
    | IssueDone(done: bool)
    | Push
    | OpenPr(number: int)
    | RecordPr(number: int)
    | Gate(stage: int, passed: bool)
    | Advance(stage: int)
    | Report(outcome: Outcome, now: int)

  /** The document on disk, what the process holds of it, and where the process stands. */
  datatype Machine = Machine(doc: StateDoc, mem: Option<St>, pc: Pc)

  predicate Past(s: St, now: int) {
    s.deadline.Some? && now >= s.deadline.value
  }

  predicate NeedsBase(stage: int) {
    stage == TEST_AUTHOR_STAGE || stage == IMPLEMENT_STAGE
  }

  /** The implementer's session is there to resume. */
  predicate Resumable(s: St) {
    Key(IMPLEMENT_STAGE) in s.sessions && s.sessions[Key(IMPLEMENT_STAGE)] != ""
  }

  /** `_base_for` does not raise. */
  predicate HasBase(s: St, stage: int) {
    Key(stage) in s.bases && s.bases[Key(stage)] != ""
  }

  predicate CanFix(s: St, round: nat, code: int, now: int) {
    code != 127 && round < MAX_CI_FIX_ROUNDS && !Past(s, now)
  }

  ghost predicate Enabled(m: Machine, e: Event) {
    match e
    case Launch => true
    case Rewrite(_, _, _) => true
    case Report(outcome, now) =>
      && !m.pc.Idle? && !m.pc.Reported?
      && (outcome.Ok? ==> m.pc.Between? && m.mem.Some? && m.mem.value.stage >= LAST_STAGE)
      && (outcome.Partial? ==>
            && m.mem.Some? && Past(m.mem.value, now)
            && ((m.pc.Between? && m.mem.value.stage < LAST_STAGE)
                || (m.pc.Red? && m.pc.code != 127 && m.pc.round < MAX_CI_FIX_ROUNDS)))
    case _ => m.mem.Some? && Moves(m.mem.value, m.pc, e)
  }

  /** What the loop may do next, from the state it holds. */
  ghost predicate Moves(s: St, pc: Pc, e: Event) {
    match e
    case Start(now) => pc.Between? && s.stage < LAST_STAGE && !Past(s, now)
    case RecordBase(stage, _) => pc == Started(stage) && NeedsBase(stage) && Key(stage) !in s.bases
    case RecordSession(stage, id) =>
      && pc == Started(stage) && stage != PR_STAGE && id != ""
      && (NeedsBase(stage) ==> Key(stage) in s.bases) && (stage == ADDRESS_COMMENTS_STAGE ==> Resumable(s))
    case Reread => pc.Recorded?
    case CiCheck(_) => pc == Started(PR_STAGE) || pc.Fixed?
    case FixRound(now) => pc.Red? && CanFix(s, pc.round, pc.code, now) && Resumable(s)
    case NamedTests(_) => pc.Green? && HasBase(s, IMPLEMENT_STAGE)
    case IssueDone(_) => pc.Kept? || pc.Flipped?
    case Push => pc.Clear?
    case OpenPr(_) => pc.Pushed?
    case RecordPr(number) => pc == Opened(number)
    case Gate(stage, passed) => pc == Settled(stage) && (NeedsBase(stage) && passed ==> HasBase(s, stage))
    case Advance(stage) => pc == Passed(stage) && SessionsProve(s.sessions, s.stage)
    case _ => false
  }

  /** The machine after an event. Each commit writes the whole document; only `RecordSession` is not carried in
      memory, which is why the loop re-reads. */
  function Next(norm: Norm, m: Machine, e: Event): Machine
    requires Enabled(m, e)
  {
    match e
    case Launch => m.(mem := Read(norm, m.doc), pc := Between)
    case Rewrite(deadline, count, at) => m.(doc := Resumed(m.doc, deadline, count, at))
    case Report(outcome, _) => m.(pc := Reported(outcome))
    case Reread => m.(mem := Read(norm, m.doc), pc := Settled(m.pc.stage))
    case RecordBase(stage, head) => Commit(m, Based(m.mem.value, stage, head), m.pc)
    case RecordSession(stage, id) => m.(doc := Payload(WithSession(m.mem.value, stage, id)), pc := Recorded(stage))
    case RecordPr(number) => Commit(m, m.mem.value.(pr := Some(number)), Settled(PR_STAGE))
    case Advance(stage) => Commit(m, m.mem.value.(stage := stage), Between)
    case _ => m.(pc := Turn(m.mem.value, m.pc, e))
  }

  function Based(s: St, stage: int, head: string): St {
    s.(bases := s.bases[Key(stage) := head])
  }

  function WithSession(s: St, stage: int, id: string): St {
    s.(sessions := s.sessions[Key(stage) := id])
  }

  function Commit(m: Machine, s: St, pc: Pc): Machine {
    Machine(Payload(s), Some(s), pc)
  }

  /** The first stage of the table past the one on record. */
  function NextStage(s: St): int {
    if s.stage < 0 then 1 else s.stage + 1
  }

  /** The steps that write nothing. */
  function Turn(s: St, pc: Pc, e: Event): Pc {
    match e
    case Start(_) => Started(NextStage(s))
    case CiCheck(code) => if code == 0 then Green else Red(if pc.Fixed? then pc.round else 0, code)
    case FixRound(_) => if pc.Red? then Fixed(pc.round + 1) else pc
    case NamedTests(removed) => if removed then Aborting else Kept
    case IssueDone(done) => if !done then Aborting else if pc.Kept? then Flipped else Clear
    case Push => Pushed
    case OpenPr(number) => Opened(number)
    case Gate(stage, passed) => if passed then Passed(stage) else Aborting
    case _ => pc
  }

  // -- runs ------------------------------------------------------------------------------------

  /** The machine after a log of events that began with the document `d0`; None if one was not enabled. */
  ghost function After(norm: Norm, d0: StateDoc, log: seq<Event>): Option<Machine> {
    if log == [] then Some(Machine(d0, None, Idle))
    else
      var m := After(norm, d0, log[..|log| - 1]);
      if m.Some? && Enabled(m.value, log[|log| - 1]) then Some(Next(norm, m.value, log[|log| - 1])) else None
  }

  /** A fresh run's document, as prepared. */
  ghost predicate Fresh(norm: Norm, d0: StateDoc) {
    var s := Read(norm, d0);
    s.Some? && s.value.stage == 0 && s.value.pr == None && s.value.sessions == map[] && s.value.bases == map[]
  }

  /** The state on disk. */
  function Disk(norm: Norm, m: Machine): Option<St> {
    Read(norm, m.doc)
  }

  predicate InBookkeeping(pc: Pc) {
    pc.Red? || pc.Fixed? || pc.Green? || pc.Kept? || pc.Flipped? || pc.Clear? || pc.Pushed? || pc.Opened?
  }

  predicate AtStage(pc: Pc, stage: int) {
    || pc == Started(stage) || pc == Recorded(stage) || pc == Settled(stage) || pc == Passed(stage)
    || (InBookkeeping(pc) && stage == PR_STAGE)
  }

  predicate OnStage(pc: Pc) {
    pc.Started? || pc.Recorded? || pc.Settled? || pc.Passed? || InBookkeeping(pc)
  }

  /** Every independent stage up to `stage` has its session. */
  predicate HasSessions(s: St, stage: int) {
    forall k :: 1 <= k <= stage && Independent(k) ==> Key(k) in s.sessions
  }

  /** What memory and disk agree on at all times. */
  ghost predicate Agree(mem: St, disk: St, behind: bool) {
    && mem.stage == disk.stage && mem.pr == disk.pr && mem.bases == disk.bases
    && (!behind ==> mem.sessions == disk.sessions)
  }

  /** What holds after every run, of the state on disk, what the process holds of it, and where it stands. */
  ghost predicate Steady(norm: Norm, disk: St, mem: Option<St>, pc: Pc) {
    && 0 <= disk.stage <= LAST_STAGE
    && (disk.stage >= PR_STAGE ==> disk.pr.Some?)
    && HasSessions(disk, disk.stage)
    && (mem.Some? ==> WellRead(norm, mem.value) && Agree(mem.value, disk, pc.Recorded? || pc.Reported?))
    && (OnStage(pc) ==> mem.Some? && disk.stage < LAST_STAGE && AtStage(pc, disk.stage + 1))
    && (pc == Settled(PR_STAGE) || pc == Passed(PR_STAGE) ==> disk.pr.Some?)
    && pc != Recorded(PR_STAGE)
    && (pc.Settled? || pc.Passed? || pc.Recorded? ==> HasSessions(disk, disk.stage + 1))
    && (pc == Reported(Ok) ==> disk.stage == LAST_STAGE)
  }

  ghost predicate Sound(norm: Norm, m: Machine) {
    Disk(norm, m).Some? && Steady(norm, Disk(norm, m).value, m.mem, m.pc)
  }

  lemma SteadyTurn(norm: Norm, disk: St, s: St, pc: Pc, e: Event)
    requires Steady(norm, disk, Some(s), pc) && Moves(s, pc, e)
    requires !e.RecordBase? && !e.RecordSession? && !e.Reread? && !e.RecordPr? && !e.Advance?
    ensures Steady(norm, disk, Some(s), Turn(s, pc, e))
  {
  }

  lemma SteadyReport(norm: Norm, disk: St, mem: Option<St>, pc: Pc, outcome: Outcome)
    requires Steady(norm, disk, mem, pc)
    requires outcome.Ok? ==> pc.Between? && mem.Some? && mem.value.stage >= LAST_STAGE
    ensures Steady(norm, disk, mem, Reported(outcome))
  {
  }

  lemma SteadyAdvance(norm: Norm, disk: St, s: St, pc: Pc, stage: int, raw: StateDoc)
    requires Steady(norm, disk, Some(s), pc) && pc == Passed(stage)
    ensures Steady(norm, s.(stage := stage, raw := raw), Some(s.(stage := stage)), Between)
  {
  }

  lemma SteadySession(norm: Norm, disk: St, s: St, pc: Pc, stage: int, id: string, raw: StateDoc)
    requires Steady(norm, disk, Some(s), pc) && Moves(s, pc, RecordSession(stage, id))
    ensures Steady(norm, WithSession(s, stage, id).(raw := raw), Some(s), Recorded(stage))
  {
  }

  lemma SteadyStore(norm: Norm, disk: St, s: St, pc: Pc, e: Event, raw: StateDoc)
    requires Steady(norm, disk, Some(s), pc) && Moves(s, pc, e) && (e.RecordBase? || e.RecordPr?)
    ensures e.RecordBase? ==> Steady(norm, Based(s, e.stage, e.head).(raw := raw), Some(Based(s, e.stage, e.head)), pc)
    ensures e.RecordPr? ==> Steady(norm, s.(pr := Some(e.number), raw := raw), Some(s.(pr := Some(e.number))), Settled(PR_STAGE))
  {
  }

  lemma SteadyRead(norm: Norm, disk: St, mem: Option<St>, pc: Pc)
    requires Steady(norm, disk, mem, pc) && WellRead(norm, disk)
    ensures Steady(norm, disk, Some(disk), Between)
    ensures pc.Recorded? ==> Steady(norm, disk, Some(disk), Settled(pc.stage))
  {
  }

  lemma SteadyRewrite(norm: Norm, disk: St, mem: Option<St>, pc: Pc, deadline: int, raw: StateDoc)
    requires Steady(norm, disk, mem, pc)
    ensures Steady(norm, disk.(deadline := Some(deadline), raw := raw), mem, pc)
  {
  }

  lemma SoundStep(norm: Norm, m: Machine, e: Event)
    requires Normal(norm) && Sound(norm, m) && Enabled(m, e)
    ensures Sound(norm, Next(norm, m, e))
  {
    var disk := Disk(norm, m).value;
    match e
    case Launch =>
      ReadIsWellRead(norm, m.doc);
      SteadyRead(norm, disk, m.mem, m.pc);
    case Rewrite(deadline, count, at) =>
      ReadResumed(norm, m.doc, deadline, count, at);
      SteadyRewrite(norm, disk, m.mem, m.pc, deadline, Resumed(m.doc, deadline, count, at));
    case RecordBase(stage, head) =>
      var s := Based(m.mem.value, stage, head);
      ReadPayload(norm, s);
      SteadyStore(norm, disk, m.mem.value, m.pc, e, Payload(s));
    case RecordSession(stage, id) =>
      var s := WithSession(m.mem.value, stage, id);
      ReadPayload(norm, s);
      SteadySession(norm, disk, m.mem.value, m.pc, stage, id, Payload(s));
    case Reread =>
      ReadIsWellRead(norm, m.doc);
      SteadyRead(norm, disk, m.mem, m.pc);
    case RecordPr(number) =>
      var s := m.mem.value.(pr := Some(number));
      ReadPayload(norm, s);
      SteadyStore(norm, disk, m.mem.value, m.pc, e, Payload(s));
    case Advance(stage) =>
      var s := m.mem.value.(stage := stage);
      ReadPayload(norm, s);
      SteadyAdvance(norm, disk, m.mem.value, m.pc, stage, Payload(s));
    case Report(outcome, _) =>
      SteadyReport(norm, disk, m.mem, m.pc, outcome);
    case _ =>
      SteadyTurn(norm, disk, m.mem.value, m.pc, e);
  }

  lemma {:induction false} RunsAreSound(norm: Norm, d0: StateDoc, log: seq<Event>)
    requires Normal(norm) && Fresh(norm, d0) && After(norm, d0, log).Some?
    ensures Sound(norm, After(norm, d0, log).value)
  {
    if log != [] {
      var n := |log| - 1;
      RunsAreSound(norm, d0, log[..n]);
      SoundStep(norm, After(norm, d0, log[..n]).value, log[n]);
    }
  }

  lemma {:induction false} PrefixRuns(norm: Norm, d0: StateDoc, log: seq<Event>, n: nat)
    requires After(norm, d0, log).Some? && n <= |log|
    ensures After(norm, d0, log[..n]).Some?
  {
    if n < |log| {
      assert log[..|log| - 1][..n] == log[..n];
      PrefixRuns(norm, d0, log[..|log| - 1], n);
    } else {
      assert log[..n] == log;
    }
  }

  /** The state on disk after a run. */
  ghost function DiskAfter(norm: Norm, d0: StateDoc, log: seq<Event>): St
    requires Normal(norm) && Fresh(norm, d0) && After(norm, d0, log).Some?
  {
    RunsAreSound(norm, d0, log);
    Disk(norm, After(norm, d0, log).value).value
  }

  /** A PR is on record from stage 5 on, for gates 6, 7 and CI as for the file; `ok` is only reported at stage 7. */
  lemma PrOnRecordAndOkOnlyAtTheEnd(norm: Norm, d0: StateDoc, log: seq<Event>)
    requires Normal(norm) && Fresh(norm, d0) && After(norm, d0, log).Some?
    ensures var m, disk := After(norm, d0, log).value, DiskAfter(norm, d0, log);
            && 0 <= disk.stage <= LAST_STAGE
            && (disk.stage >= PR_STAGE ==> disk.pr.Some? && (m.mem.Some? ==> m.mem.value.pr.Some?))
            && (m.pc == Reported(Ok) ==> disk.stage == LAST_STAGE)
  {
    RunsAreSound(norm, d0, log);
  }

  /** How a step may change the state on disk: only an `Advance` moves the stage, by one, from a passed gate; a base
      is only ever added. */
  ghost predicate DiskMoves(before: St, pc: Pc, e: Event, after: St, pcAfter: Pc) {
    && after.stage == (if e.Advance? then e.stage else before.stage)
    && after.bases == (if e.RecordBase? then before.bases[Key(e.stage) := e.head] else before.bases)
    && (e.Advance? ==> e.stage == before.stage + 1 && pc == Passed(e.stage) && !pcAfter.Passed?)
    && (e.RecordBase? ==> Key(e.stage) !in before.bases)
    && (pcAfter.Passed? ==> pc.Passed? || e == Gate(before.stage + 1, true))
  }

  /** The state a commit writes. */
  function Stored(s: St, e: Event): St {
    match e
    case RecordBase(stage, head) => Based(s, stage, head)
    case RecordSession(stage, id) => WithSession(s, stage, id)
    case RecordPr(number) => s.(pr := Some(number))
    case Advance(stage) => s.(stage := stage)
    case _ => s
  }

  lemma DiskWrites(norm: Norm, m: Machine, e: Event)
    requires Normal(norm) && Sound(norm, m) && Enabled(m, e) && (e.RecordBase? || e.RecordSession? || e.RecordPr? || e.Advance?)
    requires Disk(norm, Next(norm, m, e)).Some?
    ensures DiskMoves(Disk(norm, m).value, m.pc, e, Disk(norm, Next(norm, m, e)).value, Next(norm, m, e).pc)
  {
    var s := m.mem.value;
    StoredIsRead(norm, m, e);
    StoredMoves(norm, Disk(norm, m).value, s, m.pc, e, Next(norm, m, e).doc, Next(norm, m, e).pc);
  }

  lemma StoredMoves(norm: Norm, disk: St, s: St, pc: Pc, e: Event, raw: StateDoc, pcAfter: Pc)
    requires Steady(norm, disk, Some(s), pc) && Moves(s, pc, e) && (e.RecordBase? || e.RecordSession? || e.RecordPr? || e.Advance?)
    requires pcAfter.Passed? ==> pc.Passed? && !e.Advance?
    ensures DiskMoves(disk, pc, e, Stored(s, e).(raw := raw), pcAfter)
  {
  }

  lemma StoredIsRead(norm: Norm, m: Machine, e: Event)
    requires m.mem.Some? && WellRead(norm, m.mem.value) && Enabled(m, e)
    requires e.RecordBase? || e.RecordSession? || e.RecordPr? || e.Advance?
    ensures Disk(norm, Next(norm, m, e)) == Some(Stored(m.mem.value, e).(raw := Next(norm, m, e).doc))
    ensures Next(norm, m, e).pc.Passed? ==> m.pc.Passed? && !e.Advance?
  {
    StoredIsWritten(norm, m, e);
    ReadPayload(norm, Stored(m.mem.value, e));
  }

  lemma StoredIsWritten(norm: Norm, m: Machine, e: Event)
    requires m.mem.Some? && WellRead(norm, m.mem.value) && Enabled(m, e)
    requires e.RecordBase? || e.RecordSession? || e.RecordPr? || e.Advance?
    ensures WellRead(norm, Stored(m.mem.value, e)) && Next(norm, m, e).doc == Payload(Stored(m.mem.value, e))
  {
  }

  /** What one event does to the state on disk. */
  lemma DiskStep(norm: Norm, m: Machine, e: Event)
    requires Normal(norm) && Sound(norm, m) && Enabled(m, e)
    ensures Sound(norm, Next(norm, m, e))
    ensures DiskMoves(Disk(norm, m).value, m.pc, e, Disk(norm, Next(norm, m, e)).value, Next(norm, m, e).pc)
  {
    SoundStep(norm, m, e);
    if e.RecordBase? || e.RecordSession? || e.RecordPr? || e.Advance? {
      DiskWrites(norm, m, e);
    } else if e.Rewrite? {
      ReadResumed(norm, m.doc, e.deadline, e.count, e.at);
    }
  }

  /** The same along a log, whose last event is `e`. */
  lemma LastStep(norm: Norm, d0: StateDoc, log: seq<Event>, n: nat, e: Event)
    requires Normal(norm) && Fresh(norm, d0) && After(norm, d0, log).Some? && |log| == n + 1 && e == log[n]
    ensures After(norm, d0, log[..n]).Some?
    ensures var before, after := DiskAfter(norm, d0, log[..n]), DiskAfter(norm, d0, log);
            && after.stage == (if e.Advance? then before.stage + 1 else before.stage)
            && (forall key :: key in before.bases ==> key in after.bases && after.bases[key] == before.bases[key])
    ensures e.Advance? ==> After(norm, d0, log[..n]).value.pc.Passed?
    ensures After(norm, d0, log).value.pc.Passed? ==>
              !e.Advance? && (After(norm, d0, log[..n]).value.pc.Passed? || e == Gate(DiskAfter(norm, d0, log[..n]).stage + 1, true))
  {
    RunsAreSound(norm, d0, log[..n]);
    DiskStep(norm, After(norm, d0, log[..n]).value, e);
  }

  lemma {:induction false} StageNeverDecreases(norm: Norm, d0: StateDoc, log: seq<Event>, n: nat)
    requires Normal(norm) && Fresh(norm, d0) && After(norm, d0, log).Some? && n <= |log|
    ensures After(norm, d0, log[..n]).Some?
    ensures DiskAfter(norm, d0, log[..n]).stage <= DiskAfter(norm, d0, log).stage <= DiskAfter(norm, d0, log[..n]).stage + (|log| - n)
    ensures var before, after := DiskAfter(norm, d0, log[..n]).bases, DiskAfter(norm, d0, log).bases;
            forall key :: key in before ==> key in after && after[key] == before[key]
  {
    if n == |log| {
      assert log[..n] == log;
    } else {
      var k := |log| - 1;
      assert log[..k][..n] == log[..n];
      LastStep(norm, d0, log, k, log[k]);
      StageNeverDecreases(norm, d0, log[..k], n);
    }
  }

  /** Across launches, crashes and rewrites, the stage on disk never decreases and never skips; a base commit, once
      written, never changes. */
  lemma StageNeverDecreasesOrSkips(norm: Norm, d0: StateDoc, log: seq<Event>, i: nat, j: nat)
    requires Normal(norm) && Fresh(norm, d0) && After(norm, d0, log).Some? && i <= j <= |log|
    ensures After(norm, d0, log[..i]).Some? && After(norm, d0, log[..j]).Some?
    ensures DiskAfter(norm, d0, log[..i]).stage <= DiskAfter(norm, d0, log[..j]).stage <= DiskAfter(norm, d0, log[..i]).stage + (j - i)
    ensures var before, after := DiskAfter(norm, d0, log[..i]).bases, DiskAfter(norm, d0, log[..j]).bases;
            forall key :: key in before ==> key in after && after[key] == before[key]
  {
    PrefixRuns(norm, d0, log, j);
    assert log[..j][..i] == log[..i];
    StageNeverDecreases(norm, d0, log[..j], i);
  }

  // -- the gates behind a stage -------------------------------------------------------------------

  /** Gates `1..k` each passed somewhere in the log, in that order. */
  ghost predicate GatesPassed(log: seq<Event>, k: int)
    decreases k
  {
    k <= 0 || exists i :: 0 <= i < |log| && log[i] == Gate(k, true) && GatesPassed(log[..i], k - 1)
  }

  lemma {:induction false} GatesPassedExtends(log: seq<Event>, n: nat, k: int)
    requires n <= |log| && GatesPassed(log[..n], k)
    ensures GatesPassed(log, k)
  {
    if k > 0 {
      var i :| 0 <= i < n && log[..n][i] == Gate(k, true) && GatesPassed(log[..n][..i], k - 1);
      assert log[..n][..i] == log[..i];
      assert log[i] == Gate(k, true);
    }
  }

  /** One step of the count: `waiting` says a gate passed whose stage is not committed yet. */
  lemma GatesStep(log: seq<Event>, n: nat, k: int, waiting: bool, waitingAfter: bool)
    requires |log| == n + 1 && GatesPassed(log[..n], k) && (waiting ==> GatesPassed(log[..n], k + 1))
    requires log[n].Advance? ==> waiting && !waitingAfter
    requires waitingAfter ==> waiting || log[n] == Gate(k + 1, true)
    ensures GatesPassed(log, if log[n].Advance? then k + 1 else k)
    ensures waitingAfter ==> GatesPassed(log, k + 1)
  {
    GatesPassedExtends(log, n, k);
    if waiting {
      GatesPassedExtends(log, n, k + 1);
    }
  }

  /** Gates 1 to the stage on disk passed, and one more if one passed that is not committed yet. */
  ghost predicate GatesKept(norm: Norm, d0: StateDoc, log: seq<Event>)
    requires Normal(norm) && Fresh(norm, d0) && After(norm, d0, log).Some?
  {
    && GatesPassed(log, DiskAfter(norm, d0, log).stage)
    && (After(norm, d0, log).value.pc.Passed? ==> GatesPassed(log, DiskAfter(norm, d0, log).stage + 1))
  }

  lemma GatesKeptStep(norm: Norm, d0: StateDoc, log: seq<Event>, n: nat)
    requires Normal(norm) && Fresh(norm, d0) && After(norm, d0, log).Some? && |log| == n + 1
    requires After(norm, d0, log[..n]).Some? && GatesKept(norm, d0, log[..n])
    ensures GatesKept(norm, d0, log)
  {
    LastStep(norm, d0, log, n, log[n]);
    GatesStep(log, n, DiskAfter(norm, d0, log[..n]).stage,
              After(norm, d0, log[..n]).value.pc.Passed?, After(norm, d0, log).value.pc.Passed?);
  }

  /** `current_stage == k` on disk means gates 1 to k passed, in order; and a passed gate not yet committed is that of
      the next stage. */
  lemma {:induction false} StageMeansGatesPassed(norm: Norm, d0: StateDoc, log: seq<Event>)
    requires Normal(norm) && Fresh(norm, d0) && After(norm, d0, log).Some?
    ensures GatesPassed(log, DiskAfter(norm, d0, log).stage)
    ensures After(norm, d0, log).value.pc.Passed? ==> GatesPassed(log, DiskAfter(norm, d0, log).stage + 1)
  {
    if log == [] {
      assert DiskAfter(norm, d0, log).stage == 0;
    } else {
      var n := |log| - 1;
      PrefixRuns(norm, d0, log, n);
      StageMeansGatesPassed(norm, d0, log[..n]);
      GatesKeptStep(norm, d0, log, n);
    }
  }
}
