/** What a pipeline run was told, launch by launch, and what its log says it did with the answers. */
module PipelineAnswers {
  import opened Common
  import opened Json
  import opened PipelineMachine
  import opened PipelineSafety
  import opened PipelineState
  import opened StageSessions

  /** What git, GitHub, the agents, the disk and the clock answer during one launch. */
  datatype World = World(
    originNamed: bool,
    startNow: int -> int,               // the clock as a stage is about to start
    specReads: int -> bool,
    head: int -> Option<string>,        // `rev-parse HEAD` before a stage
    feedback: bool,                     // the review feedback could be fetched
    settled: int -> bool,               // the agent of a stage settled well
    session: int -> Option<string>,
    swept: int -> bool,
    preflight: bool,
    ci: nat -> int,                     // exit code of the check in each round
    fixNow: nat -> int,
    fixed: nat -> bool,                 // the fix round settled well and was swept
    sweptAfterCi: bool,
    names: seq<string>,                 // the tests the spec names
    testsAt: string -> Option<map<string, seq<string>>>,   // their definitions at a revision; None: git failed
    issueDone: bool, issueStillDone: bool,
    pushed: bool,
    prNumber: Option<int>,
    gate: int -> bool,
    gateRaises: int -> bool,            // the gate meets an error that none of its handlers catches
    ciGateRaises: bool,                 // so does gate CI, behind stage 5's commit
    baseSaved: int -> bool, sessionSaved: int -> bool, prSaved: bool, stageSaved: int -> bool,   // each atomic replace
    rereads: int -> bool,               // the document reads again after a stage
    reportSaved: bool)

  const HEAD := "HEAD"

  /** The named tests could be read at the base and at HEAD. */
  predicate TestsRead(w: World, base: string) {
    w.testsAt(base).Some? && w.testsAt(HEAD).Some?
  }

  /** Every named test that existed at the base still exists at HEAD. */
  predicate NamedKept(w: World, base: string) {
    && TestsRead(w, base)
    && forall i :: 0 <= i < |w.names| && w.names[i] in w.testsAt(base).value ==> w.names[i] in w.testsAt(HEAD).value
  }

  /** The base commit of the implementer's stage. */
  function ImplementBase(s: St): string
    requires HasBase(s, IMPLEMENT_STAGE)
  {
    s.bases[Key(IMPLEMENT_STAGE)]
  }

  function RoundOf(pc: Pc): nat {
    if pc.Fixed? || pc.Red? then pc.round else 0
  }

  /** A report that says partial does so by the clock. */
  ghost predicate InTime(w: World, m: Machine, outcome: Outcome, now: int) {
    outcome.Partial? ==>
      m.mem.Some? && now == if m.pc.Red? then w.fixNow(m.pc.round) else w.startNow(NextStage(m.mem.value))
  }

  /** The event says what the world answered to the process at this point. */
  ghost predicate Truthful(w: World, m: Machine, e: Event) {
    match e
    case Start(now) => m.mem.Some? && now == w.startNow(NextStage(m.mem.value))
    case RecordBase(stage, head) => w.head(stage) == Some(head) && w.baseSaved(stage)
    case RecordSession(stage, id) => w.settled(stage) && w.session(stage) == Some(id) && w.sessionSaved(stage)
    case Reread => m.pc.Recorded? ==> w.rereads(m.pc.stage)
    case CiCheck(code) => code == w.ci(RoundOf(m.pc)) && (m.pc.Fixed? && m.pc.round > 0 ==> w.fixed(m.pc.round - 1))
    case FixRound(now) => now == w.fixNow(RoundOf(m.pc))
    case NamedTests(removed) =>
      && m.mem.Some? && HasBase(m.mem.value, IMPLEMENT_STAGE)
      && TestsRead(w, ImplementBase(m.mem.value)) && removed == !NamedKept(w, ImplementBase(m.mem.value))
    case IssueDone(done) => done == if m.pc.Kept? then w.issueDone else w.issueStillDone
    case OpenPr(number) => w.pushed && w.prNumber == Some(number)
    case RecordPr(_) => w.prSaved
    case Gate(stage, passed) =>
      && m.mem.Some? && !w.gateRaises(stage)
      && passed == (w.gate(stage) && (NeedsBase(stage) ==> HasBase(m.mem.value, stage)))
    case Advance(stage) => w.stageSaved(stage)
    case Report(outcome, now) => w.reportSaved && InTime(w, m, outcome, now)
    case _ => true
  }

  /** Every event of the log is truthful to the world of its launch; a launch meets one world. */
  ghost predicate Told(norm: Norm, d0: StateDoc, log: seq<Event>, worlds: seq<World>) {
    && |worlds| == |log|
    && (log != [] ==>
          var n := |log| - 1;
          && Told(norm, d0, log[..n], worlds[..n])
          && After(norm, d0, log[..n]).Some? && Truthful(worlds[n], After(norm, d0, log[..n]).value, log[n])
          && (n > 0 && !log[n].Launch? ==> worlds[n] == worlds[n - 1]))
  }

  lemma ToldGrows(norm: Norm, d0: StateDoc, log: seq<Event>, worlds: seq<World>, w: World, e: Event)
    requires Told(norm, d0, log, worlds) && After(norm, d0, log).Some? && Truthful(w, After(norm, d0, log).value, e)
    requires e.Launch? || log == [] || worlds[|worlds| - 1] == w
    ensures Told(norm, d0, log + [e], worlds + [w])
  {
    assert (log + [e])[..|log|] == log && (worlds + [w])[..|log|] == worlds;
  }

  lemma {:induction false} ToldPrefix(norm: Norm, d0: StateDoc, log: seq<Event>, worlds: seq<World>, n: nat)
    requires Told(norm, d0, log, worlds) && n <= |log|
    ensures Told(norm, d0, log[..n], worlds[..n])
  {
    if n < |log| {
      var k := |log| - 1;
      assert log[..k][..n] == log[..n] && worlds[..k][..n] == worlds[..n];
      ToldPrefix(norm, d0, log[..k], worlds[..k], n);
    } else {
      assert log[..n] == log && worlds[..n] == worlds;
    }
  }

  // -- what a process at its place has been told -----------------------------------------------------

  /** The answers behind a place in the loop, after `checks` CI checks in this launch. */
  ghost predicate Heard(w: World, m: Machine, checks: nat) {
    && (Rank(m.pc) >= 1 ==> checks >= 1 && w.ci(checks - 1) == 0)
    && (Rank(m.pc) >= 2 ==> m.mem.Some? && HasBase(m.mem.value, IMPLEMENT_STAGE) && NamedKept(w, ImplementBase(m.mem.value)))
    && (Rank(m.pc) >= 3 ==> w.issueDone)
    && (Rank(m.pc) >= 4 ==> w.issueStillDone)
    && (m.pc.Passed? ==> w.gate(m.pc.stage))
  }

  /** How many checks the current place knows of: a check follows the last round. */
  predicate ChecksKnown(m: Machine, checks: nat) {
    && (m.pc == Started(PR_STAGE) ==> checks == 0)
    && (m.pc.Fixed? ==> checks == m.pc.round)
  }

  lemma HeardCheck(norm: Norm, w: World, m: Machine, e: Event, checks: nat)
    requires Enabled(m, e) && e.CiCheck? && Truthful(w, m, e) && ChecksKnown(m, checks)
    ensures Heard(w, Next(norm, m, e), checks + 1)
  {
  }

  lemma HeardOther(norm: Norm, w: World, m: Machine, e: Event, checks: nat)
    requires Enabled(m, e) && !e.CiCheck? && !e.Launch? && Truthful(w, m, e) && Heard(w, m, checks)
    ensures Heard(w, Next(norm, m, e), checks)
  {
  }

  lemma HeardLaunch(norm: Norm, w: World, m: Machine)
    ensures Heard(w, Next(norm, m, Launch), 0)
  {
  }

  /** The world of the last event of a non-empty log. */
  function Latest(worlds: seq<World>): World
    requires worlds != []
  {
    worlds[|worlds| - 1]
  }

  /** A log of a fresh run, told truthfully. */
  ghost predicate ToldRun(norm: Norm, d0: StateDoc, log: seq<Event>, worlds: seq<World>) {
    Normal(norm) && Fresh(norm, d0) && After(norm, d0, log).Some? && Told(norm, d0, log, worlds)
  }

  lemma ToldRunPrefix(norm: Norm, d0: StateDoc, log: seq<Event>, worlds: seq<World>, n: nat)
    requires ToldRun(norm, d0, log, worlds) && n <= |log|
    ensures ToldRun(norm, d0, log[..n], worlds[..n])
  {
    PrefixRuns(norm, d0, log, n);
    ToldPrefix(norm, d0, log, worlds, n);
  }

  lemma {:induction false} RunsHeard(norm: Norm, d0: StateDoc, log: seq<Event>, worlds: seq<World>)
    requires ToldRun(norm, d0, log, worlds) && log != []
    ensures Heard(Latest(worlds), After(norm, d0, log).value, Checks(log))
  {
    var n := |log| - 1;
    ToldRunPrefix(norm, d0, log, worlds, n);
    if n > 0 {
      RunsHeard(norm, d0, log[..n], worlds[..n]);
    }
    HeardGoesOn(norm, d0, log, worlds, n);
  }

  lemma HeardGoesOn(norm: Norm, d0: StateDoc, log: seq<Event>, worlds: seq<World>, n: nat)
    requires ToldRun(norm, d0, log, worlds) && |log| == n + 1 && ToldRun(norm, d0, log[..n], worlds[..n])
    requires n > 0 ==> Heard(Latest(worlds[..n]), After(norm, d0, log[..n]).value, Checks(log[..n]))
    ensures Heard(worlds[n], After(norm, d0, log).value, Checks(log))
  {
    var m := BeforeLast(norm, d0, log, worlds, n);
    HeardStep(norm, worlds[n], m, log[n], Fixes(log[..n]), Checks(log[..n]));
  }

  /** The machine before the last event, with all that is known of it. */
  lemma BeforeLast(norm: Norm, d0: StateDoc, log: seq<Event>, worlds: seq<World>, n: nat) returns (m: Machine)
    requires ToldRun(norm, d0, log, worlds) && |log| == n + 1 && ToldRun(norm, d0, log[..n], worlds[..n])
    ensures After(norm, d0, log[..n]) == Some(m) && Counted(m, Fixes(log[..n]), Checks(log[..n]))
    ensures Enabled(m, log[n]) && Truthful(worlds[n], m, log[n]) && After(norm, d0, log) == Some(Next(norm, m, log[n]))
    ensures Checks(log) == if log[n].Launch? then 0 else Checks(log[..n]) + if log[n].CiCheck? then 1 else 0
    ensures n == 0 ==> m.pc.Idle?
    ensures n > 0 && !log[n].Launch? ==> worlds[n] == Latest(worlds[..n])
  {
    m := After(norm, d0, log[..n]).value;
    LastEvent(norm, d0, log, worlds, n);
    RunsAreCounted(norm, d0, log[..n]);
  }

  /** What the last event of a told log was. */
  lemma LastEvent(norm: Norm, d0: StateDoc, log: seq<Event>, worlds: seq<World>, n: nat)
    requires After(norm, d0, log).Some? && Told(norm, d0, log, worlds) && |log| == n + 1
    ensures After(norm, d0, log[..n]).Some?
    ensures var m := After(norm, d0, log[..n]).value;
            Enabled(m, log[n]) && Truthful(worlds[n], m, log[n]) && After(norm, d0, log).value == Next(norm, m, log[n])
    ensures Checks(log) == if log[n].Launch? then 0 else Checks(log[..n]) + if log[n].CiCheck? then 1 else 0
    ensures n == 0 ==> After(norm, d0, log[..n]).value.pc.Idle?
    ensures n > 0 && !log[n].Launch? ==> worlds[n] == Latest(worlds[..n])
  {
  }

  lemma HeardStep(norm: Norm, w: World, m: Machine, e: Event, fixes: nat, checks: nat)
    requires Enabled(m, e) && Truthful(w, m, e) && Counted(m, fixes, checks)
    requires e.Launch? || m.pc.Idle? || Heard(w, m, checks)
    ensures Heard(w, Next(norm, m, e), if e.Launch? then 0 else checks + if e.CiCheck? then 1 else 0)
  {
    if e.Launch? {
      HeardLaunch(norm, w, m);
    } else if e.CiCheck? {
      HeardCheck(norm, w, m, e, checks);
    } else {
      HeardOther(norm, w, m, e, checks);
    }
  }

  // -- the theorems, over the answers ------------------------------------------------------------------

  /** What a push needs to have been told, given the state on disk and the number of CI checks in the launch. */
  ghost predicate MayPush(w: World, disk: St, checks: nat) {
    && checks >= 1 && w.ci(checks - 1) == 0
    && HasBase(disk, IMPLEMENT_STAGE) && NamedKept(w, ImplementBase(disk))
    && w.issueDone && w.issueStillDone
  }

  /** Before any push: the last CI check of the launch answered 0, every named test of the recorded base was at HEAD,
      and git showed the issue committed as done, twice; in that order, nothing redone in between. */
  lemma PushIsBackedByAnswers(norm: Norm, d0: StateDoc, log: seq<Event>, worlds: seq<World>, i: nat)
    requires ToldRun(norm, d0, log, worlds) && i < |log| && log[i] == Push
    ensures Chain(log[..i + 1], 5) && After(norm, d0, log[..i]).Some?
    ensures MayPush(worlds[i], DiskAfter(norm, d0, log[..i]), Checks(log[..i]))
  {
    PushOnlyCheckedWork(norm, d0, log, i);
    PushMay(norm, d0, log, worlds, i);
  }

  lemma PushMay(norm: Norm, d0: StateDoc, log: seq<Event>, worlds: seq<World>, i: nat)
    requires ToldRun(norm, d0, log, worlds) && i < |log| && log[i] == Push
    ensures After(norm, d0, log[..i]).Some? && MayPush(worlds[i], DiskAfter(norm, d0, log[..i]), Checks(log[..i]))
  {
    ToldRunPrefix(norm, d0, log, worlds, i + 1);
    assert log[..i + 1][..i] == log[..i];
    PushHeard(norm, d0, log[..i + 1], worlds[..i + 1], i);
  }

  lemma PushHeard(norm: Norm, d0: StateDoc, log: seq<Event>, worlds: seq<World>, i: nat)
    requires ToldRun(norm, d0, log, worlds) && |log| == i + 1 && log[i] == Push
    ensures After(norm, d0, log[..i]).Some?
    ensures MayPush(worlds[i], DiskAfter(norm, d0, log[..i]), Checks(log[..i]))
  {
    PushComesFromClear(norm, d0, log, i);
    ToldRunPrefix(norm, d0, log, worlds, i);
    assert log[..i] != [];
    RunsHeard(norm, d0, log[..i], worlds[..i]);
    RunsAreSound(norm, d0, log[..i]);
    ClearMayPush(norm, Latest(worlds[..i]), After(norm, d0, log[..i]).value, Checks(log[..i]));
  }

  lemma ClearMayPush(norm: Norm, w: World, m: Machine, checks: nat)
    requires Sound(norm, m) && Heard(w, m, checks) && m.pc.Clear?
    ensures MayPush(w, Disk(norm, m).value, checks)
  {
  }

  /** A passed gate in the log was answered so. */
  lemma {:induction false} GateWasAnswered(norm: Norm, d0: StateDoc, log: seq<Event>, worlds: seq<World>, i: nat, k: int)
    requires Told(norm, d0, log, worlds) && i < |log| && log[i] == Gate(k, true)
    ensures worlds[i].gate(k)
  {
    ToldPrefix(norm, d0, log, worlds, i + 1);
    assert log[..i + 1][i] == log[i] && worlds[..i + 1][i] == worlds[i];
  }

  /** Gates `1..k` each passed somewhere in the log, in that order, and each was answered so to its launch. */
  ghost predicate GatesAnswered(log: seq<Event>, worlds: seq<World>, k: int)
    requires |worlds| == |log|
    decreases k
  {
    k <= 0 ||
    exists i :: 0 <= i < |log| && log[i] == Gate(k, true) && worlds[i].gate(k) && GatesAnswered(log[..i], worlds[..i], k - 1)
  }

  lemma {:induction false} PassedMeansAnswered(norm: Norm, d0: StateDoc, log: seq<Event>, worlds: seq<World>, k: int)
    requires Told(norm, d0, log, worlds) && GatesPassed(log, k)
    ensures GatesAnswered(log, worlds, k)
    decreases k
  {
    if k > 0 {
      var i := PassedAt(log, k);
      GateWasAnswered(norm, d0, log, worlds, i, k);
      ToldPrefix(norm, d0, log, worlds, i);
      PassedMeansAnswered(norm, d0, log[..i], worlds[..i], k - 1);
      AnsweredAt(log, worlds, k, i);
    } else {
      NothingAsked(log, worlds, k);
    }
  }

  lemma PassedAt(log: seq<Event>, k: int) returns (i: nat)
    requires k > 0 && GatesPassed(log, k)
    ensures i < |log| && log[i] == Gate(k, true) && GatesPassed(log[..i], k - 1)
  {
    i :| 0 <= i < |log| && log[i] == Gate(k, true) && GatesPassed(log[..i], k - 1);
  }

  lemma NothingAsked(log: seq<Event>, worlds: seq<World>, k: int)
    requires |worlds| == |log| && k <= 0
    ensures GatesAnswered(log, worlds, k)
  {
  }

  lemma AnsweredAt(log: seq<Event>, worlds: seq<World>, k: int, i: nat)
    requires i < |log| == |worlds| && log[i] == Gate(k, true) && worlds[i].gate(k) && GatesAnswered(log[..i], worlds[..i], k - 1)
    ensures GatesAnswered(log, worlds, k)
  {
  }

  /** `current_stage == k` on disk means the gates of stages 1 to k answered that they pass, in order. */
  lemma StageMeansGatesAnswered(norm: Norm, d0: StateDoc, log: seq<Event>, worlds: seq<World>)
    requires ToldRun(norm, d0, log, worlds)
    ensures GatesAnswered(log, worlds, DiskAfter(norm, d0, log).stage)
  {
    StageMeansGatesPassed(norm, d0, log);
    PassedMeansAnswered(norm, d0, log, worlds, DiskAfter(norm, d0, log).stage);
  }

  /** The launch that commits a stage is one whose own gate answer let it. */
  lemma AdvanceIsBackedByAnswer(norm: Norm, d0: StateDoc, log: seq<Event>, worlds: seq<World>, i: nat, k: int)
    requires ToldRun(norm, d0, log, worlds)
    requires i < |log| && log[i] == Advance(k)
    ensures worlds[i].gate(k)
  {
    ToldRunPrefix(norm, d0, log, worlds, i + 1);
    AdvanceHeard(norm, d0, log[..i + 1], worlds[..i + 1], i, k);
  }

  lemma AdvanceHeard(norm: Norm, d0: StateDoc, log: seq<Event>, worlds: seq<World>, i: nat, k: int)
    requires ToldRun(norm, d0, log, worlds)
    requires |log| == i + 1 && log[i] == Advance(k)
    ensures worlds[i].gate(k)
  {
    var m := After(norm, d0, log[..i]).value;
    ToldRunPrefix(norm, d0, log, worlds, i);
    assert m.pc == Passed(k) && log[..i] != [];
    RunsHeard(norm, d0, log[..i], worlds[..i]);
  }
}
