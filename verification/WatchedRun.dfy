/** A pipeline run and its watchdog together: the launches of the one are the resumes of the other. */
module WatchedRun {
  import opened Common
  import opened History
  import opened PipelineMachine
  import opened PipelineSafety
  import opened PipelineState
  import W = Watchdog

  /** The run as the watchdog sees it, as the pipeline does, whether its process is alive, and the launches granted and
      not begun. */
  datatype Run = Run(c: W.Case, m: Machine, alive: bool, owed: nat)

  datatype Move =
    | Begins                               // the process of a granted launch
    | Does(e: Event)                       // its next effect
    | Dies
    | Sweeps(sw: W.Sweep, a: W.Action)
    | Noted(r: Record)                     // anyone appends to the history

  /** The sweep gets as far as rewriting the document. */
  ghost predicate Rewrites(cap: int, id: string, c: W.Case, sw: W.Sweep) {
    && W.Acts(c, id, sw) && W.PlanIn(cap, c, id, sw).Some? && !sw.death.BeforeRewrite? && sw.rewriteWorks
  }

  /** The events of a move, as the pipeline's machine has them. */
  ghost function EventsOf(cap: int, id: string, c: W.Case, move: Move): seq<Event> {
    match move
    case Begins => [Launch]
    case Does(e) => [e]
    case Sweeps(sw, _) =>
      if Rewrites(cap, id, c, sw) then
        var plan := W.PlanIn(cap, c, id, sw).value;
        [Rewrite(plan.deadline, plan.count, sw.stamp)]
      else []
    case _ => []
  }

  /** The same, as the watchdog has it. */
  function StepOf(move: Move): W.Step {
    match move
    case Sweeps(sw, a) => W.SweepBy(sw, a)
    case Noted(r) => W.Logged(r)
    case Does(e) => if e.Report? then W.Finished else W.Committed
    case _ => W.Committed
  }

  ghost function MachineAfter(norm: Norm, m: Machine, events: seq<Event>): Option<Machine> {
    if events == [] then Some(m)
    else if |events| == 1 && Enabled(m, events[0]) then Some(Next(norm, m, events[0]))
    else None
  }

  /** One move. The watchdog acts only when no process is there or on its way. */
  ghost predicate Moves(norm: Norm, cap: int, id: string, r: Run, move: Move, after: Run) {
    && MachineAfter(norm, r.m, EventsOf(cap, id, r.c, move)) == Some(after.m)
    && match move
       case Begins => !r.alive && r.owed > 0 && after.c == r.c && after.alive && after.owed == r.owed - 1
       case Does(e) =>
         && r.alive && !e.Launch? && !e.Rewrite? && after.c == W.Case(after.m.doc, r.c.history, r.c.reported || e.Report?)
         && after.alive == !e.Report? && after.owed == r.owed
       case Dies => r.alive && after.c == r.c && !after.alive && after.owed == r.owed
       case Sweeps(sw, a) =>
         && (W.Acts(r.c, id, sw) ==> !r.alive && r.owed == 0) && W.Sweeps(cap, id, r.c, sw, a, after.c)
         && after.alive == r.alive && after.owed == r.owed + if a.Resumes? then 1 else 0
       case Noted(record) =>
         && !W.RunningFor(record, id) && after.c == r.c.(history := r.c.history + [record])
         && after.alive == r.alive && after.owed == r.owed
  }

  /** A run from its preparation on: the first launch is granted, and then only the watchdog grants more. */
  ghost predicate Lives(norm: Norm, cap: int, id: string, d0: StateDoc, runs: seq<Run>, moves: seq<Move>) {
    && |runs| == |moves| + 1
    && runs[0].m == Machine(d0, None, Idle) && runs[0].c.doc == d0 && !runs[0].alive && runs[0].owed == 1
    && forall i :: 0 <= i < |moves| ==> MovesAt(norm, cap, id, runs, moves, i)
  }

  ghost predicate MovesAt(norm: Norm, cap: int, id: string, runs: seq<Run>, moves: seq<Move>, i: nat)
    requires i < |moves| == |runs| - 1
  {
    Moves(norm, cap, id, runs[i], moves[i], runs[i + 1])
  }

  /** The two views agree, and a living process is up to date. */
  ghost predicate Together(r: Run) {
    r.m.doc == r.c.doc && (r.alive ==> W.UpToDate(r.m))
  }

  lemma StepTogether(norm: Norm, cap: int, id: string, r: Run, move: Move, after: Run)
    requires Normal(norm) && Moves(norm, cap, id, r, move, after) && Together(r)
    ensures Together(after) && W.Follows(cap, id, r.c, StepOf(move), after.c)
  {
    match move
    case Begins => W.ProcessLeavesTheCounterAlone(norm, r.m, Launch);
    case Does(e) => W.ProcessLeavesTheCounterAlone(norm, r.m, e);
    case _ =>
  }

  ghost function CasesOf(runs: seq<Run>): (cases: seq<W.Case>)
    ensures |cases| == |runs| && forall i :: 0 <= i < |runs| ==> cases[i] == runs[i].c
  {
    if runs == [] then [] else CasesOf(runs[..|runs| - 1]) + [runs[|runs| - 1].c]
  }

  function StepsOf(moves: seq<Move>): (steps: seq<W.Step>)
    ensures |steps| == |moves| && forall i :: 0 <= i < |moves| ==> steps[i] == StepOf(moves[i])
  {
    if moves == [] then [] else StepsOf(moves[..|moves| - 1]) + [StepOf(moves[|moves| - 1])]
  }

  /** All the pipeline's events in the first `n` moves. */
  ghost function LogOf(cap: int, id: string, runs: seq<Run>, moves: seq<Move>, n: nat): seq<Event>
    requires n <= |moves| <= |runs|
  {
    if n == 0 then [] else LogOf(cap, id, runs, moves, n - 1) + EventsOf(cap, id, runs[n - 1].c, moves[n - 1])
  }

  lemma {:induction false} StaysTogether(norm: Norm, cap: int, id: string, d0: StateDoc, runs: seq<Run>, moves: seq<Move>, n: nat)
    requires Normal(norm) && Lives(norm, cap, id, d0, runs, moves) && n <= |moves|
    ensures Together(runs[n])
  {
    if n > 0 {
      StaysTogether(norm, cap, id, d0, runs, moves, n - 1);
      assert MovesAt(norm, cap, id, runs, moves, n - 1);
      StepTogether(norm, cap, id, runs[n - 1], moves[n - 1], runs[n]);
    }
  }

  /** To the watchdog the whole life of a run, its process's commits included, is one of its traces. */
  lemma LivesAreTraces(norm: Norm, cap: int, id: string, d0: StateDoc, runs: seq<Run>, moves: seq<Move>)
    requires Normal(norm) && Lives(norm, cap, id, d0, runs, moves)
    ensures W.Trace(cap, id, CasesOf(runs), StepsOf(moves))
  {
    forall i | 0 <= i < |moves| ensures W.Follows(cap, id, CasesOf(runs)[i], StepsOf(moves)[i], CasesOf(runs)[i + 1]) {
      StaysTogether(norm, cap, id, d0, runs, moves, i);
      assert MovesAt(norm, cap, id, runs, moves, i);
      StepTogether(norm, cap, id, runs[i], moves[i], runs[i + 1]);
    }
  }

  lemma AfterMove(norm: Norm, d0: StateDoc, log: seq<Event>, m: Machine, events: seq<Event>, after: Machine)
    requires After(norm, d0, log) == Some(m) && MachineAfter(norm, m, events) == Some(after)
    ensures After(norm, d0, log + events) == Some(after)
  {
    if events == [] {
      assert log + events == log;
    } else {
      assert (log + events)[..|log|] == log && (log + events)[|log|] == events[0];
    }
  }

  /** To the pipeline it is one of its logs. */
  lemma {:induction false} LivesAreRuns(norm: Norm, cap: int, id: string, d0: StateDoc, runs: seq<Run>, moves: seq<Move>, n: nat)
    requires Lives(norm, cap, id, d0, runs, moves) && n <= |moves|
    ensures After(norm, d0, LogOf(cap, id, runs, moves, n)) == Some(runs[n].m)
  {
    if n > 0 {
      LivesAreRuns(norm, cap, id, d0, runs, moves, n - 1);
      MachineMoves(norm, cap, id, runs, moves, n - 1);
      AfterMove(norm, d0, LogOf(cap, id, runs, moves, n - 1), runs[n - 1].m,
                EventsOf(cap, id, runs[n - 1].c, moves[n - 1]), runs[n].m);
    }
  }

  lemma MachineMoves(norm: Norm, cap: int, id: string, runs: seq<Run>, moves: seq<Move>, i: nat)
    requires i < |moves| == |runs| - 1 && MovesAt(norm, cap, id, runs, moves, i)
    ensures MachineAfter(norm, runs[i].m, EventsOf(cap, id, runs[i].c, moves[i])) == Some(runs[i + 1].m)
  {
  }

  // -- what a whole run may use -----------------------------------------------------------------------

  /** Launches, fix rounds and CI checks of all launches together. */
  function AllLaunches(log: seq<Event>): nat {
    if log == [] then 0 else AllLaunches(log[..|log| - 1]) + if log[|log| - 1].Launch? then 1 else 0
  }

  function AllFixes(log: seq<Event>): nat {
    if log == [] then 0 else AllFixes(log[..|log| - 1]) + if log[|log| - 1].FixRound? then 1 else 0
  }

  function AllChecks(log: seq<Event>): nat {
    if log == [] then 0 else AllChecks(log[..|log| - 1]) + if log[|log| - 1].CiCheck? then 1 else 0
  }

  lemma LaunchesOfMove(cap: int, id: string, log: seq<Event>, c: W.Case, move: Move)
    requires move.Does? ==> !move.e.Launch?
    ensures AllLaunches(log + EventsOf(cap, id, c, move)) == AllLaunches(log) + if move.Begins? then 1 else 0
  {
    var events := EventsOf(cap, id, c, move);
    if events == [] {
      assert log + events == log;
    } else {
      assert (log + events)[..|log|] == log && (log + events)[|log|] == events[0];
    }
  }

  lemma OwedAt(norm: Norm, cap: int, id: string, runs: seq<Run>, moves: seq<Move>, i: nat)
    requires i < |moves| == |runs| - 1 && MovesAt(norm, cap, id, runs, moves, i)
    ensures runs[i + 1].owed + (if moves[i].Begins? then 1 else 0)
            == runs[i].owed + if moves[i].Sweeps? && moves[i].a.Resumes? then 1 else 0
    ensures moves[i].Does? ==> !moves[i].e.Launch?
  {
  }

  /** Every launch begun was granted: the first, and one for each resume. */
  lemma {:induction false} LaunchesAreGranted(norm: Norm, cap: int, id: string, d0: StateDoc, runs: seq<Run>, moves: seq<Move>, n: nat)
    requires Lives(norm, cap, id, d0, runs, moves) && n <= |moves|
    ensures AllLaunches(LogOf(cap, id, runs, moves, n)) + runs[n].owed <= 1 + W.Launches(StepsOf(moves), n)
  {
    if n > 0 {
      LaunchesAreGranted(norm, cap, id, d0, runs, moves, n - 1);
      OwedAt(norm, cap, id, runs, moves, n - 1);
      LaunchesOfMove(cap, id, LogOf(cap, id, runs, moves, n - 1), runs[n - 1].c, moves[n - 1]);
    }
  }

  /** Each launch has its own two fix rounds and three checks. */
  lemma {:induction false} PerLaunch(norm: Norm, d0: StateDoc, log: seq<Event>)
    requires Normal(norm) && Fresh(norm, d0) && After(norm, d0, log).Some?
    ensures AllFixes(log) - Fixes(log) <= MAX_CI_FIX_ROUNDS * (if AllLaunches(log) > 0 then AllLaunches(log) - 1 else 0)
    ensures AllChecks(log) - Checks(log) <= (MAX_CI_FIX_ROUNDS + 1) * (if AllLaunches(log) > 0 then AllLaunches(log) - 1 else 0)
    ensures AllLaunches(log) == 0 ==> After(norm, d0, log).value.mem.None? && Fixes(log) == 0 && Checks(log) == 0
  {
    if log != [] {
      var front := log[..|log| - 1];
      PerLaunch(norm, d0, front);
      RunsAreCounted(norm, d0, front);
    }
  }

  /** Over a whole run, whatever dies: at most one launch more than resumes, two fix rounds and three checks each. */
  lemma AWholeRunIsBounded(norm: Norm, cap: nat, id: string, d0: StateDoc, runs: seq<Run>, moves: seq<Move>)
    requires Normal(norm) && Fresh(norm, d0) && W.Count(d0) == 0 && Lives(norm, cap, id, d0, runs, moves)
    ensures var log, unpaid := LogOf(cap, id, runs, moves, |moves|), W.UnpaidLaunches(StepsOf(moves), |moves|);
            && After(norm, d0, log).Some? && AllLaunches(log) <= 1 + cap + unpaid
            && AllFixes(log) <= 2 * (1 + cap + unpaid) && AllChecks(log) <= 3 * (1 + cap + unpaid)
    ensures W.RewritesWork(StepsOf(moves)) ==> AllLaunches(LogOf(cap, id, runs, moves, |moves|)) <= 1 + cap
  {
    var n := |moves|;
    var log := LogOf(cap, id, runs, moves, n);
    LivesAreRuns(norm, cap, id, d0, runs, moves, n);
    LivesAreTraces(norm, cap, id, d0, runs, moves);
    LaunchesAreGranted(norm, cap, id, d0, runs, moves, n);
    W.ResumesAreBounded(cap, id, CasesOf(runs), StepsOf(moves), n);
    PerLaunch(norm, d0, log);
    RunsAreCounted(norm, d0, log);
    if W.RewritesWork(StepsOf(moves)) {
      W.AllPaid(StepsOf(moves), n);
    }
  }
}
