/** The stall watchdog (`pipeline_watchdog.py`): when a run counts as dead, its one automatic resume, and the report
    that ends the matter. */
module Watchdog {
  import opened Common
  import opened History
  import opened Json
  import opened PipelineMachine
  import opened PipelineState

  const DEADLINE_GRACE_SECONDS := 30 * 60
  const BOOT_SLOP_SECONDS := 60

  // -- what the history says of a run -------------------------------------------------------------

  predicate RunningFor(r: Record, id: string) {
    r.state == Running && Field(r.extra, "pipeline_run_id") == JStr(id)
  }

  function DeadlineOf(r: Record): Option<int> {
    if Field(r.extra, "deadline_epoch").JInt? then Some(Field(r.extra, "deadline_epoch").n) else None
  }

  /** The launch record: the first `running` record of the run. */
  function FirstRunning(log: seq<Record>, id: string): Option<Record> {
    if log == [] then None
    else
      var first := FirstRunning(log[..|log| - 1], id);
      if first.Some? then first else if RunningFor(log[|log| - 1], id) then Some(log[|log| - 1]) else None
  }

  /** The deadline of the last `running` record that carries one. */
  function LastDeadline(log: seq<Record>, id: string): Option<int> {
    if log == [] then None
    else if RunningFor(log[|log| - 1], id) && DeadlineOf(log[|log| - 1]).Some? then DeadlineOf(log[|log| - 1])
    else LastDeadline(log[..|log| - 1], id)
  }

  /** `recorded_pipeline_deadlines`. */
  method RecordedPipelineDeadlines(log: seq<Record>) returns (deadlines: map<string, int>)
    ensures forall id: string :: Get(deadlines, id) == LastDeadline(log, id)
  {
    deadlines := map[];
    for i := 0 to |log|
      invariant forall id: string {:trigger Get(deadlines, id)} :: Get(deadlines, id) == LastDeadline(log[..i], id)
    {
      assert log[..i + 1][..i] == log[..i];
      var r := log[i];
      var runId := Field(r.extra, "pipeline_run_id");
      var before := deadlines;
      if r.state == Running && runId.JStr? && DeadlineOf(r).Some? {
        deadlines := deadlines[runId.s := DeadlineOf(r).value];
      }
      forall id: string ensures Get(deadlines, id) == LastDeadline(log[..i + 1], id) {
        assert Get(before, id) == LastDeadline(log[..i], id);
      }
    }
    assert log[..|log|] == log;
  }

  // -- one run under watch --------------------------------------------------------------------------

  /** What lasts of a run: its document, the history, and whether a terminal report exists. */
  datatype Case = Case(doc: StateDoc, history: seq<Record>, reported: bool)

  /** Where a sweep may die. */
  datatype Death = Survives | BeforeAppend | BeforeRewrite | BeforeLaunch | BeforeReport

  /** What one sweep meets. */
  datatype Sweep = Sweep(
    now: int, stamp: string, boot: Option<int>, stateWritten: Option<int>, heartbeatStale: bool, unitActive: Option<bool>,
    stateReads: bool, panesListed: bool, rewriteWorks: bool, launchWorks: bool, death: Death)

  datatype Plan = Plan(budget: int, deadline: int, count: int)

  datatype Action = Spared | Resumes(plan: Plan) | FailsToResume(plan: Plan) | Reaps | Dies(launched: bool)

  /** `resume_count`, 0 when missing or no integer. */
  function Count(d: StateDoc): int {
    if OptInt(d, ResumeCount).Some? then OptInt(d, ResumeCount).value else 0
  }

  /** The deadline a sweep judges by: the last recorded one, else the document's; None: the run is skipped. */
  function Deadline(c: Case, id: string): Option<int> {
    if LastDeadline(c.history, id).Some? then LastDeadline(c.history, id) else OptInt(c.doc, DeadlineEpoch)
  }

  predicate Inflight(c: Case, id: string) {
    id != "" && OptText(c.doc, RunId) == Some(id) && Deadline(c, id).Some? && !c.reported
  }

  predicate Rebooted(sw: Sweep) {
    sw.boot.Some? && sw.stateWritten.Some? && sw.boot.value > sw.stateWritten.value + BOOT_SLOP_SECONDS * MICROS
  }

  /** `is_stalled`: the host rebooted since the last state write, or both the deadline and its grace are past and the
      heartbeat is quiet. */
  predicate Stalled(c: Case, id: string, sw: Sweep)
    requires Inflight(c, id)
  {
    Rebooted(sw) || (sw.now > (Deadline(c, id).value + DEADLINE_GRACE_SECONDS) * MICROS && sw.heartbeatStale)
  }

  /** Seconds from the launch to the deadline recorded then, or to the current one when none was. */
  function Budget(c: Case, id: string, first: Record): int
    requires Deadline(c, id).Some?
  {
    (if DeadlineOf(first).Some? then DeadlineOf(first).value else Deadline(c, id).value) - Second(first.ts)
  }

  /** `_resume_plan`: None is each reason for not being eligible. */
  function PlanOf(cap: int, c: Case, id: string, now: int): Option<Plan>
    requires Deadline(c, id).Some?
  {
    if OptText(c.doc, RepoParent).None? then None
    else if !IsText(Field(Artifacts(c.doc), "report")) then None
    else if Count(c.doc) >= cap then None
    else
      var first := FirstRunning(c.history, id);
      if first.None? then None
      else if Budget(c, id, first.value) * 1000 <= 0 then None
      else Some(Plan(Budget(c, id, first.value), Second(now) + Budget(c, id, first.value), Count(c.doc) + 1))
  }

  /** The record of a resume. */
  function ResumeRecord(first: Record, id: string, plan: Plan, now: int): Record {
    Record(now, first.job, Running, first.runId,
           map["pipeline_run_id" := JStr(id), "deadline_epoch" := JInt(plan.deadline), "resume_count" := JInt(plan.count)])
  }

  /** The sweep finds the run dead, can list its panes, and lives to act on it. */
  predicate Acts(c: Case, id: string, sw: Sweep) {
    && Inflight(c, id) && Stalled(c, id, sw) && sw.unitActive == Some(false) && sw.panesListed
    && sw.death != BeforeAppend
  }

  function PlanIn(cap: int, c: Case, id: string, sw: Sweep): Option<Plan>
    requires Inflight(c, id)
  {
    if sw.stateReads then PlanOf(cap, c, id, sw.now) else None
  }

  /** What one sweep does. */
  ghost predicate Sweeps(cap: int, id: string, c: Case, sw: Sweep, a: Action, after: Case) {
    if !Acts(c, id, sw) then after == c && (a == Spared || (a == Dies(false) && !sw.death.Survives?))
    else
      var plan := PlanIn(cap, c, id, sw);
      if plan.None? then
        if sw.death.Survives? then a == Reaps && after == c.(reported := true) else a == Dies(false) && after == c
      else
        && after.history == c.history + [ResumeRecord(FirstRunning(c.history, id).value, id, plan.value, sw.now)]
        && (after.doc == if sw.death.BeforeRewrite? || !sw.rewriteWorks then c.doc
                         else Resumed(c.doc, plan.value.deadline, plan.value.count, sw.stamp))
        && (if sw.death.BeforeRewrite? || sw.death.BeforeLaunch? then a == Dies(false) && !after.reported
            else if sw.launchWorks then a == Resumes(plan.value) && !after.reported
            else if sw.death.BeforeReport? then a == Dies(true) && !after.reported
            else a == FailsToResume(plan.value) && after.reported)
  }

  class Watched {
    const id: string
    var c: Case

    constructor (id: string, c: Case)
      ensures this.id == id && this.c == c
    {
      this.id, this.c := id, c;
    }

    /** `_reap_stalled_run`; a death of the sweep itself is one of its inputs. */
    method Reap(cap: int, sw: Sweep) returns (a: Action)
      modifies this
      ensures Sweeps(cap, id, old(c), sw, a, c)
      ensures sw.death.Survives? && sw.unitActive == Some(false) && sw.panesListed && Inflight(old(c), id) ==>
                (a != Spared <==> Dead(old(c), id, sw))
    {
      DeadlineMeans(c, id);
      if !Inflight(c, id) || !Stalled(c, id, sw) {
        return Spared;
      }
      if sw.unitActive != Some(false) {
        return Spared;
      }
      if sw.death.BeforeAppend? {
        return Dies(false);
      }
      if sw.stateReads {
        var plan := PlanOf(cap, c, id, sw.now);
        if plan.Some? {
          if !sw.panesListed {
            return Spared;
          }
          a := Resume(cap, sw, plan.value);
          return;
        }
      }
      if !sw.panesListed {
        return Spared;
      }
      if !sw.death.Survives? {
        return Dies(false);
      }
      c := c.(reported := true);
      a := Reaps;
    }

    /** The effects of `_resume_run`, in their order: history, document, launch, and the report if the launch failed. */
    method Resume(cap: int, sw: Sweep, plan: Plan) returns (a: Action)
      requires Acts(c, id, sw) && PlanIn(cap, c, id, sw) == Some(plan)
      modifies this
      ensures Sweeps(cap, id, old(c), sw, a, c)
    {
      var record := ResumeRecord(FirstRunning(c.history, id).value, id, plan, sw.now);
      c := c.(history := c.history + [record]);
      if sw.death.BeforeRewrite? {
        return Dies(false);
      }
      if sw.rewriteWorks {
        c := c.(doc := Resumed(c.doc, plan.deadline, plan.count, sw.stamp));
      }
      if sw.death.BeforeLaunch? {
        return Dies(false);
      }
      if sw.launchWorks {
        return Resumes(plan);
      }
      if sw.death.BeforeReport? {
        return Dies(true);
      }
      c := c.(reported := true);
      a := FailsToResume(plan);
    }
  }

  // -- which runs count as dead -----------------------------------------------------------------------

  /** The deadline a run is judged by: that of its last `running` record with one, else the document's. */
  ghost predicate JudgedBy(c: Case, id: string, deadline: int) {
    || (exists k :: DeadlineAt(c.history, k, id, deadline))
    || ((forall k, d :: !DeadlineAt(c.history, k, id, d)) && DeadlineEpoch in c.doc && c.doc[DeadlineEpoch] == JInt(deadline))
  }

  /** `log[k]` is the run's last `running` record with a deadline. */
  ghost predicate DeadlineAt(log: seq<Record>, k: nat, id: string, deadline: int) {
    && k < |log| && Started(log[k], id) && Field(log[k].extra, "deadline_epoch") == JInt(deadline)
    && forall j :: k < j < |log| && Started(log[j], id) ==> !Field(log[j].extra, "deadline_epoch").JInt?
  }

  predicate Started(r: Record, id: string) {
    r.state == Running && Field(r.extra, "pipeline_run_id") == JStr(id)
  }

  lemma {:induction false} LastDeadlineMeans(log: seq<Record>, id: string)
    ensures forall k: nat, d :: DeadlineAt(log, k, id, d) ==> LastDeadline(log, id) == Some(d)
    ensures LastDeadline(log, id).Some? ==> exists k: nat :: DeadlineAt(log, k, id, LastDeadline(log, id).value)
  {
    if log != [] {
      var n := |log| - 1;
      LastDeadlineMeans(log[..n], id);
      if RunningFor(log[n], id) && DeadlineOf(log[n]).Some? {
        assert DeadlineAt(log, n, id, DeadlineOf(log[n]).value);
      } else {
        forall k: nat, d | DeadlineAt(log, k, id, d) ensures DeadlineAt(log[..n], k, id, d) {
        }
        if LastDeadline(log, id).Some? {
          var k: nat :| DeadlineAt(log[..n], k, id, LastDeadline(log, id).value);
          assert DeadlineAt(log, k, id, LastDeadline(log, id).value);
        }
      }
    }
  }

  lemma DeadlineMeans(c: Case, id: string)
    ensures forall d :: JudgedBy(c, id, d) <==> Deadline(c, id) == Some(d)
  {
    LastDeadlineMeans(c.history, id);
    if LastDeadline(c.history, id).Some? {
      var k: nat :| DeadlineAt(c.history, k, id, LastDeadline(c.history, id).value);
    }
  }

  /** A run is dead when the host booted over a minute after its last state write, or when over half an hour has passed
      since its deadline and its heartbeat is stale. */
  ghost predicate Dead(c: Case, id: string, sw: Sweep) {
    || (sw.boot.Some? && sw.stateWritten.Some? && sw.boot.value - sw.stateWritten.value > 60 * 1_000_000)
    || (sw.heartbeatStale && exists deadline :: JudgedBy(c, id, deadline) && sw.now > (deadline + 1800) * 1_000_000)
  }

  /** A sweep that lives acts on a run exactly when that is its run, unreported, with a deadline on record, dead, its unit
      inactive and its panes listed; otherwise nothing changes. */
  lemma DeadRunsAreActedOn(cap: int, id: string, c: Case, sw: Sweep, a: Action, after: Case)
    requires Sweeps(cap, id, c, sw, a, after) && sw.death.Survives?
    ensures a != Spared <==>
              && id != "" && RunId in c.doc && c.doc[RunId] == JStr(id) && !c.reported
              && (exists deadline :: JudgedBy(c, id, deadline)) && Dead(c, id, sw)
              && sw.unitActive == Some(false) && sw.panesListed
    ensures a == Spared ==> after == c
  {
    DeadlineMeans(c, id);
    if Deadline(c, id).Some? {
      assert JudgedBy(c, id, Deadline(c, id).value);
    }
  }

  /** The run's launch record. */
  ghost predicate FirstAt(log: seq<Record>, k: nat, id: string) {
    k < |log| && Started(log[k], id) && forall j :: 0 <= j < k ==> !Started(log[j], id)
  }

  lemma {:induction false} FirstRunningMeans(log: seq<Record>, id: string)
    ensures forall k: nat :: FirstAt(log, k, id) ==> FirstRunning(log, id) == Some(log[k])
    ensures FirstRunning(log, id).Some? ==> exists k: nat :: FirstAt(log, k, id)
  {
    if log != [] {
      var n := |log| - 1;
      FirstRunningMeans(log[..n], id);
      forall k: nat | FirstAt(log, k, id) && k < n ensures FirstAt(log[..n], k, id) {
      }
      if FirstRunning(log, id).Some? {
        var j: nat :| j < |log| && Started(log[j], id);
        var k := FirstOf(log, j, id);
      }
    }
  }

  lemma {:induction false} FirstOf(log: seq<Record>, j: nat, id: string) returns (k: nat)
    requires j < |log| && Started(log[j], id)
    ensures k <= j && FirstAt(log, k, id)
  {
    if i: nat :| i < j && Started(log[i], id) {
      k := FirstOf(log, i, id);
    } else {
      k := j;
    }
  }

  /** Seconds from the launch to the deadline on the launch record, or to the one judged by. */
  ghost predicate GrantIs(c: Case, id: string, k: nat, seconds: int)
    requires k < |c.history|
  {
    var d := Field(c.history[k].extra, "deadline_epoch");
    if d.JInt? then seconds == d.n - c.history[k].ts / 1_000_000
    else exists deadline :: JudgedBy(c, id, deadline) && seconds == deadline - c.history[k].ts / 1_000_000
  }

  /** When a dead run is resumed rather than reported: its document names a repository and a report, its counter is below
      the cap, and its launch record leaves it time; the resume has that time again, and one more on the counter. */
  lemma ResumeMeans(cap: int, id: string, c: Case, now: int)
    requires Deadline(c, id).Some?
    ensures PlanOf(cap, c, id, now).Some? <==>
              && IsText(Item(c.doc, RepoParent)) && IsText(Field(Artifacts(c.doc), "report"))
              && (if Item(c.doc, ResumeCount).JInt? then Item(c.doc, ResumeCount).n else 0) < cap
              && exists k: nat, seconds :: FirstAt(c.history, k, id) && GrantIs(c, id, k, seconds) && seconds > 0
    ensures forall k: nat, seconds :: PlanOf(cap, c, id, now).Some? && FirstAt(c.history, k, id) && GrantIs(c, id, k, seconds) ==>
              PlanOf(cap, c, id, now).value ==
              Plan(seconds, now / 1_000_000 + seconds, (if Item(c.doc, ResumeCount).JInt? then Item(c.doc, ResumeCount).n else 0) + 1)
  {
    FirstRunningMeans(c.history, id);
    DeadlineMeans(c, id);
    forall k: nat, seconds | FirstAt(c.history, k, id) && GrantIs(c, id, k, seconds) ensures seconds == Budget(c, id, c.history[k]) {
    }
    if k: nat :| FirstAt(c.history, k, id) {
      assert JudgedBy(c, id, Deadline(c, id).value);
      assert GrantIs(c, id, k, Budget(c, id, c.history[k]));
    }
  }

  // -- many sweeps, with the run going on in between ------------------------------------------------

  datatype Step =
    | SweepBy(sw: Sweep, a: Action)
    | Committed                       // the run's own process writes its document
    | Finished                        // the run writes its own report
    | Logged(r: Record)               // anyone appends to the history

  /** What the watchdog reads of a document and a process leaves alone. */
  ghost predicate SameForWatchdog(d: StateDoc, after: StateDoc) {
    && OptText(after, RunId) == OptText(d, RunId) && OptText(after, RepoParent) == OptText(d, RepoParent)
    && OptInt(after, ResumeCount) == OptInt(d, ResumeCount) && OptInt(after, DeadlineEpoch) == OptInt(d, DeadlineEpoch)
    && Field(Artifacts(after), "report") == Field(Artifacts(d), "report")
  }

  ghost predicate Follows(cap: int, id: string, c: Case, step: Step, after: Case) {
    match step
    case SweepBy(sw, a) => Sweeps(cap, id, c, sw, a, after)
    case Committed => SameForWatchdog(c.doc, after.doc) && after == c.(doc := after.doc)
    case Finished => after == c.(reported := true)
    case Logged(r) => !RunningFor(r, id) && after == c.(history := c.history + [r])
  }

  ghost predicate Trace(cap: int, id: string, cases: seq<Case>, steps: seq<Step>) {
    && |cases| == |steps| + 1
    && forall i :: 0 <= i < |steps| ==> Follows(cap, id, cases[i], steps[i], cases[i + 1])
  }

  /** Every document write of a sweep that did anything worked; deaths are allowed. */
  predicate RewritesWork(steps: seq<Step>) {
    forall i :: 0 <= i < |steps| && steps[i].SweepBy? && !steps[i].a.Spared? ==> steps[i].sw.rewriteWorks
  }

  predicate Launched(a: Action) {
    a.Resumes? || a.FailsToResume? || a == Dies(true)
  }

  /** Launches attempted by the first `n` steps. */
  function Launches(steps: seq<Step>, n: nat): nat
    requires n <= |steps|
  {
    if n == 0 then 0
    else Launches(steps, n - 1) + if steps[n - 1].SweepBy? && Launched(steps[n - 1].a) then 1 else 0
  }

  /** Sweeps among the first `n` steps that acted and lived: resumed, failed to, or reaped. */
  function Acted(steps: seq<Step>, n: nat): nat
    requires n <= |steps|
  {
    if n == 0 then 0
    else
      var step := steps[n - 1];
      Acted(steps, n - 1) + if step.SweepBy? && (step.a.Resumes? || step.a.FailsToResume? || step.a.Reaps?) then 1 else 0
  }

  function Most(a: int, b: int): int {
    if a < b then b else a
  }

  lemma CountOfResumed(d: StateDoc, deadline: int, count: int, at: string)
    ensures Count(Resumed(d, deadline, count, at)) == count
    ensures OptInt(Resumed(d, deadline, count, at), DeadlineEpoch) == Some(deadline)
  {
  }

  /** A launch whose rewrite failed: the counter does not know of it. */
  predicate Unpaid(step: Step) {
    step.SweepBy? && Launched(step.a) && !step.sw.rewriteWorks
  }

  /** The counter was raised, and the sweep died before the launch. */
  ghost predicate Wasted(cap: int, id: string, c: Case, step: Step) {
    && step.SweepBy? && Acts(c, id, step.sw) && PlanIn(cap, c, id, step.sw).Some?
    && step.sw.rewriteWorks && step.sw.death.BeforeLaunch?
  }

  function UnpaidLaunches(steps: seq<Step>, n: nat): nat
    requires n <= |steps|
  {
    if n == 0 then 0 else UnpaidLaunches(steps, n - 1) + if Unpaid(steps[n - 1]) then 1 else 0
  }

  ghost function WastedCounts(cap: int, id: string, cases: seq<Case>, steps: seq<Step>, n: nat): nat
    requires n <= |steps| <= |cases|
  {
    if n == 0 then 0
    else WastedCounts(cap, id, cases, steps, n - 1) + if Wasted(cap, id, cases[n - 1], steps[n - 1]) then 1 else 0
  }

  /** One step: every launch is on the counter or unpaid, every count is for a launch or wasted, and the counter never
      passes the cap; a terminal action reports, and nothing is done after a report. */
  lemma StepPays(cap: int, id: string, c: Case, step: Step, after: Case)
    requires Follows(cap, id, c, step, after)
    ensures Count(after.doc) + (if Unpaid(step) then 1 else 0) ==
            Count(c.doc) + (if step.SweepBy? && Launched(step.a) then 1 else 0) + if Wasted(cap, id, c, step) then 1 else 0
    ensures Count(after.doc) <= Most(cap, Count(c.doc))
    ensures c.reported ==> after.reported && !(step.SweepBy? && (Launched(step.a) || step.a.Reaps?))
    ensures step.SweepBy? && (step.a.FailsToResume? || step.a.Reaps?) ==> after.reported
  {
    if step.SweepBy? && Acts(c, id, step.sw) {
      var plan := PlanIn(cap, c, id, step.sw);
      if plan.Some? {
        CountOfResumed(c.doc, plan.value.deadline, plan.value.count, step.sw.stamp);
      }
    }
  }

  /** The counter's balance over any run, whatever fails and whatever dies: it stands at the launches it knows of and the
      counts that led to none, it never passes the cap, and one acting sweep at most comes on top of the launches. */
  lemma {:induction false} LaunchesAreAccounted(cap: int, id: string, cases: seq<Case>, steps: seq<Step>, n: nat)
    requires Trace(cap, id, cases, steps) && n <= |steps|
    ensures Count(cases[n].doc) + UnpaidLaunches(steps, n) ==
            Count(cases[0].doc) + Launches(steps, n) + WastedCounts(cap, id, cases, steps, n)
    ensures Count(cases[0].doc) <= Count(cases[n].doc) <= Most(cap, Count(cases[0].doc))
    ensures Acted(steps, n) <= Launches(steps, n) + if cases[n].reported then 1 else 0
  {
    if n > 0 {
      LaunchesAreAccounted(cap, id, cases, steps, n - 1);
      assert Follows(cap, id, cases[n - 1], steps[n - 1], cases[n]);
      StepPays(cap, id, cases[n - 1], steps[n - 1], cases[n]);
    }
  }

  /** Exactly when the launches stay within what the counter left below the cap at first: when those whose rewrite
      failed are no more than what it leaves at last and the counts wasted. */
  lemma ResumesAreBounded(cap: int, id: string, cases: seq<Case>, steps: seq<Step>, n: nat)
    requires Trace(cap, id, cases, steps) && n <= |steps|
    ensures Launches(steps, n) <= cap - Count(cases[0].doc) <==>
            UnpaidLaunches(steps, n) <= cap - Count(cases[n].doc) + WastedCounts(cap, id, cases, steps, n)
    ensures Count(cases[0].doc) <= cap ==> Launches(steps, n) <= cap - Count(cases[0].doc) + UnpaidLaunches(steps, n)
    ensures Acted(steps, n) <= Launches(steps, n) + 1
  {
    LaunchesAreAccounted(cap, id, cases, steps, n);
  }

  lemma {:induction false} AllPaid(steps: seq<Step>, n: nat)
    requires RewritesWork(steps) && n <= |steps|
    ensures UnpaidLaunches(steps, n) == 0
  {
    if n > 0 {
      AllPaid(steps, n - 1);
    }
  }

  /** From a prepared document (counter 0), when the rewrites of sweeps that did anything worked: at most `cap` launches
      and `cap + 1` acting sweeps. */
  lemma AtMostCapResumesAndOneMore(cap: nat, id: string, cases: seq<Case>, steps: seq<Step>)
    requires Trace(cap, id, cases, steps) && RewritesWork(steps) && Count(cases[0].doc) == 0
    ensures Launches(steps, |steps|) <= cap && Acted(steps, |steps|) <= cap + 1
  {
    AllPaid(steps, |steps|);
    ResumesAreBounded(cap, id, cases, steps, |steps|);
  }

  /** A run starts with what the bounds and the pipeline's invariants ask for. */
  lemma PreparedStartsClean(norm: Norm, runId: string, worktree: string, branch: string, workspace: string, deadline: int,
                            repoParent: string, source: string, spec: string, report: string)
    requires worktree != "" && branch != ""
    ensures var d := Prepared(runId, worktree, branch, workspace, deadline, repoParent, source, spec, report);
            Fresh(norm, d) && Count(d) == 0 && OptInt(d, DeadlineEpoch) == Some(deadline)
  {
    ReadPrepared(norm, runId, worktree, branch, workspace, deadline, repoParent, source, spec, report);
  }

  // -- what a failing rewrite does --------------------------------------------------------------------

  /** A sweep that finds the run dead after a reboot, cannot rewrite the document, and launches all the same. */
  predicate RewriteFails(sw: Sweep) {
    && Rebooted(sw) && sw.unitActive == Some(false) && sw.stateReads && sw.panesListed && !sw.rewriteWorks
    && sw.launchWorks && sw.death.Survives?
  }

  /** The run can be resumed, on the budget of its launch record. */
  predicate Resumable(cap: int, c: Case, id: string) {
    && id != "" && OptText(c.doc, RunId) == Some(id) && !c.reported
    && OptText(c.doc, RepoParent).Some? && IsText(Field(Artifacts(c.doc), "report")) && Count(c.doc) < cap
    && var first := FirstRunning(c.history, id);
       first.Some? && DeadlineOf(first.value).Some? && DeadlineOf(first.value).value > Second(first.value.ts)
  }

  lemma ResumeRecordReads(first: Record, id: string, plan: Plan, now: int)
    ensures RunningFor(ResumeRecord(first, id, plan, now), id)
    ensures DeadlineOf(ResumeRecord(first, id, plan, now)) == Some(plan.deadline)
  {
  }

  lemma AppendKeepsFirst(log: seq<Record>, r: Record, id: string)
    requires FirstRunning(log, id).Some?
    ensures FirstRunning(log + [r], id) == FirstRunning(log, id)
    ensures LastDeadline(log + [r], id) ==
            if RunningFor(r, id) && DeadlineOf(r).Some? then DeadlineOf(r) else LastDeadline(log, id)
  {
    assert (log + [r])[..|log|] == log;
  }

  lemma {:induction false} FirstHasDeadline(log: seq<Record>, id: string)
    requires FirstRunning(log, id).Some? && DeadlineOf(FirstRunning(log, id).value).Some?
    ensures LastDeadline(log, id).Some?
  {
    if FirstRunning(log[..|log| - 1], id).Some? {
      FirstHasDeadline(log[..|log| - 1], id);
    }
  }

  lemma FailedRewriteResumes(cap: int, id: string, c: Case, sw: Sweep, a: Action, after: Case)
    requires Resumable(cap, c, id) && RewriteFails(sw) && Sweeps(cap, id, c, sw, a, after)
    ensures a.Resumes? && Resumable(cap, after, id)
  {
    FirstHasDeadline(c.history, id);
    assert Inflight(c, id) && Acts(c, id, sw);
    var plan := PlanIn(cap, c, id, sw).value;
    AppendKeepsFirst(c.history, ResumeRecord(FirstRunning(c.history, id).value, id, plan, sw.now), id);
  }

  /** When no rewrite works, every sweep resumes again and none is paid. */
  lemma {:induction false} FailedRewritesResumeForever(cap: int, id: string, cases: seq<Case>, steps: seq<Step>, n: nat)
    requires Trace(cap, id, cases, steps) && n <= |steps| && Resumable(cap, cases[0], id)
    requires forall i :: 0 <= i < |steps| ==> steps[i].SweepBy? && RewriteFails(steps[i].sw)
    ensures Launches(steps, n) == n == UnpaidLaunches(steps, n) && Resumable(cap, cases[n], id)
  {
    if n > 0 {
      FailedRewritesResumeForever(cap, id, cases, steps, n - 1);
      assert Follows(cap, id, cases[n - 1], steps[n - 1], cases[n]);
      FailedRewriteResumes(cap, id, cases[n - 1], steps[n - 1].sw, steps[n - 1].a, cases[n]);
    }
  }

  /** A run that meets the same failing sweep again and again. */
  ghost predicate FailsEachTime(cap: int, id: string, cases: seq<Case>, steps: seq<Step>, sw: Sweep) {
    Trace(cap, id, cases, steps) && Resumable(cap, cases[0], id) && forall i :: 0 <= i < |steps| ==> steps[i].SweepBy? && steps[i].sw == sw
  }

  lemma FailsOnceMore(cap: int, id: string, cases: seq<Case>, steps: seq<Step>, sw: Sweep) returns (step: Step, after: Case)
    requires RewriteFails(sw) && FailsEachTime(cap, id, cases, steps, sw)
    ensures FailsEachTime(cap, id, cases + [after], steps + [step], sw)
  {
    FailedRewritesResumeForever(cap, id, cases, steps, |steps|);
    var a;
    a, after := SweepAgain(cap, id, cases[|steps|], sw);
    step := SweepBy(sw, a);
  }

  /** And there are such runs of every length, whatever the cap. */
  lemma {:induction false} NoCapHoldsWithoutRewrites(cap: int, id: string, c: Case, sw: Sweep, n: nat)
    returns (cases: seq<Case>, steps: seq<Step>)
    requires Resumable(cap, c, id) && RewriteFails(sw)
    ensures FailsEachTime(cap, id, cases, steps, sw) && |steps| == n && cases[0] == c && Launches(steps, n) == n
  {
    cases, steps := [c], [];
    if n > 0 {
      cases, steps := NoCapHoldsWithoutRewrites(cap, id, c, sw, n - 1);
      var step, after := FailsOnceMore(cap, id, cases, steps, sw);
      cases, steps := cases + [after], steps + [step];
    }
    FailedRewritesResumeForever(cap, id, cases, steps, n);
  }

  lemma SweepAgain(cap: int, id: string, c: Case, sw: Sweep) returns (a: Action, after: Case)
    requires Resumable(cap, c, id) && RewriteFails(sw)
    ensures Sweeps(cap, id, c, sw, a, after)
  {
    FirstHasDeadline(c.history, id);
    assert Inflight(c, id) && Acts(c, id, sw);
    var plan := PlanIn(cap, c, id, sw).value;
    a := Resumes(plan);
    after := c.(history := c.history + [ResumeRecord(FirstRunning(c.history, id).value, id, plan, sw.now)]);
  }

  // -- budgets and deadlines ----------------------------------------------------------------------------

  /** A resume grants the launch record's budget, counted from now; the deadline later sweeps use is the one it
      recorded, and the one in the document if the rewrite was made. */
  lemma ResumeGrantsOriginalBudget(cap: int, id: string, c: Case, sw: Sweep, a: Action, after: Case)
    requires Acts(c, id, sw) && PlanIn(cap, c, id, sw).Some? && Sweeps(cap, id, c, sw, a, after)
    ensures var plan, first := PlanIn(cap, c, id, sw).value, FirstRunning(c.history, id).value;
            && plan.budget > 0 && plan.deadline == Second(sw.now) + plan.budget
            && (DeadlineOf(first).Some? ==> plan.budget == DeadlineOf(first).value - Second(first.ts))
            && LastDeadline(after.history, id) == Some(plan.deadline) == Deadline(after, id)
            && (sw.rewriteWorks && !sw.death.BeforeRewrite? ==> OptInt(after.doc, DeadlineEpoch) == Some(plan.deadline))
            && FirstRunning(after.history, id) == Some(first)
  {
    var plan, first := PlanIn(cap, c, id, sw).value, FirstRunning(c.history, id).value;
    var r := ResumeRecord(first, id, plan, sw.now);
    ResumeRecordReads(first, id, plan, sw.now);
    AppendKeepsFirst(c.history, r, id);
    CountOfResumed(c.doc, plan.deadline, plan.count, sw.stamp);
  }

  /** Over a whole run the launch record stays the first one, so every resume grants the same budget. */
  lemma {:induction false} LaunchRecordStays(cap: int, id: string, cases: seq<Case>, steps: seq<Step>, n: nat)
    requires Trace(cap, id, cases, steps) && n <= |steps| && FirstRunning(cases[0].history, id).Some?
    ensures FirstRunning(cases[n].history, id) == FirstRunning(cases[0].history, id)
  {
    if n > 0 {
      LaunchRecordStays(cap, id, cases, steps, n - 1);
      var c, step, after := cases[n - 1], steps[n - 1], cases[n];
      assert Follows(cap, id, c, step, after);
      if |after.history| == |c.history| + 1 {
        AppendKeepsFirst(c.history, after.history[|c.history|], id);
        assert after.history == c.history + [after.history[|c.history|]];
      }
    }
  }

  /** Without a deadline on the launch record the budget is measured from the launch to the deadline of the day, and a
      second resume is granted the time already spent on top. */
  lemma BudgetGrowsWithoutALaunchDeadline(cap: int, id: string, c: Case, sw: Sweep, a: Action, after: Case)
    requires Acts(c, id, sw) && PlanIn(cap, c, id, sw).Some? && Sweeps(cap, id, c, sw, a, after)
    ensures var plan, first := PlanIn(cap, c, id, sw).value, FirstRunning(c.history, id).value;
            Budget(after, id, first) == if DeadlineOf(first).Some? then plan.budget else plan.budget + Second(sw.now) - Second(first.ts)
  {
    ResumeGrantsOriginalBudget(cap, id, c, sw, a, after);
  }

  /** The history and the document name the same deadline. */
  ghost predicate DeadlinesAgree(c: Case, id: string) {
    LastDeadline(c.history, id).Some? ==> OptInt(c.doc, DeadlineEpoch) == LastDeadline(c.history, id)
  }

  lemma {:induction false} DeadlinesStayAgreed(cap: int, id: string, cases: seq<Case>, steps: seq<Step>, n: nat)
    requires Trace(cap, id, cases, steps) && RewritesWork(steps) && n <= |steps| && DeadlinesAgree(cases[0], id)
    requires FirstRunning(cases[0].history, id).Some?
    requires forall i :: 0 <= i < |steps| && steps[i].SweepBy? ==> !steps[i].sw.death.BeforeRewrite?
    ensures DeadlinesAgree(cases[n], id)
  {
    if n > 0 {
      DeadlinesStayAgreed(cap, id, cases, steps, n - 1);
      LaunchRecordStays(cap, id, cases, steps, n - 1);
      var c, step, after := cases[n - 1], steps[n - 1], cases[n];
      assert Follows(cap, id, c, step, after);
      match step
      case SweepBy(sw, a) =>
        if Acts(c, id, sw) && PlanIn(cap, c, id, sw).Some? {
          ResumeGrantsOriginalBudget(cap, id, c, sw, a, after);
        }
      case Logged(r) => AppendKeepsFirst(c.history, r, id);
      case _ =>
    }
  }

  // -- the run's process, as the watchdog sees it --------------------------------------------------------

  /** What the process holds agrees with the document on all that the watchdog reads. */
  ghost predicate UpToDate(m: Machine) {
    m.mem.Some? ==>
      && SameForWatchdog(m.mem.value.raw, m.doc)
      && m.mem.value.deadline == OptInt(m.doc, DeadlineEpoch)
      && m.mem.value.runId == (if OptText(m.doc, RunId).Some? then OptText(m.doc, RunId).value else "")
  }

  lemma PayloadForWatchdog(s: St)
    ensures var d := Payload(s);
            && OptText(d, RepoParent) == OptText(s.raw, RepoParent) && OptInt(d, ResumeCount) == OptInt(s.raw, ResumeCount)
            && OptInt(d, DeadlineEpoch) == s.deadline && OptText(d, RunId) == (if s.runId != "" then Some(s.runId) else None)
            && Field(Artifacts(d), "report") == Field(Artifacts(s.raw), "report")
  {
    PayloadItem(s, RepoParent);
    PayloadItem(s, ResumeCount);
    PayloadItem(s, DeadlineEpoch);
    PayloadItem(s, RunId);
    PayloadArtifacts(s);
  }

  /** A process launched after the last rewrite leaves what the watchdog reads alone, whatever it commits: its steps are
      `Committed` steps. Only a rewrite under a live process could be undone. */
  lemma ProcessLeavesTheCounterAlone(norm: Norm, m: Machine, e: Event)
    requires Normal(norm) && Enabled(m, e) && !e.Rewrite? && (UpToDate(m) || e.Launch?)
    ensures UpToDate(Next(norm, m, e)) && SameForWatchdog(m.doc, Next(norm, m, e).doc)
  {
    match e
    case RecordBase(stage, head) => PayloadForWatchdog(Based(m.mem.value, stage, head));
    case RecordSession(stage, id) => PayloadForWatchdog(WithSession(m.mem.value, stage, id));
    case RecordPr(number) => PayloadForWatchdog(m.mem.value.(pr := Some(number)));
    case Advance(stage) => PayloadForWatchdog(m.mem.value.(stage := stage));
    case _ =>
  }
}
