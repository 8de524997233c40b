/** `run_pipeline`: one launch, from the document as found to its report. */
module PipelineRun {
  import opened Common
  import opened Json
  import opened PipelineAnswers
  import opened PipelineMachine
  import opened PipelineState
  import opened Sequences
  import opened StageSessions

  // -- what a launch comes to ------------------------------------------------------------------

  /** A red check in round `r` is fixed: the round may start, and settles well. */
  predicate Fixes(w: World, s: St, r: nat) {
    w.ci(r) != 127 && !Past(s, w.fixNow(r)) && Resumable(s) && w.fixed(r)
  }

  /** The check comes out green, from round `r` on. */
  predicate GreenFrom(w: World, s: St, r: nat)
    decreases MAX_CI_FIX_ROUNDS - r
  {
    w.ci(r) == 0 || (r < MAX_CI_FIX_ROUNDS && Fixes(w, s, r) && GreenFrom(w, s, r + 1))
  }

  /** A fix round would start past the deadline, from round `r` on. */
  predicate LateFrom(w: World, s: St, r: nat)
    decreases MAX_CI_FIX_ROUNDS - r
  {
    && r < MAX_CI_FIX_ROUNDS && w.ci(r) != 0 && w.ci(r) != 127
    && (Past(s, w.fixNow(r)) || (Fixes(w, s, r) && LateFrom(w, s, r + 1)))
  }

  predicate CiGreen(w: World, s: St) {
    GreenFrom(w, s, 0)
  }

  predicate CiLate(w: World, s: St) {
    LateFrom(w, s, 0)
  }

  /** Green means: some check among the first three exits 0, and every red one before it was fixed in time by the
      implementer's own session. */
  lemma {:induction false} GreenMeans(w: World, s: St, from: nat)
    requires from <= MAX_CI_FIX_ROUNDS
    ensures GreenFrom(w, s, from) <==>
            exists r :: from <= r <= MAX_CI_FIX_ROUNDS && w.ci(r) == 0
                        && forall q :: from <= q < r ==> w.ci(q) != 0 && Fixes(w, s, q)
    decreases MAX_CI_FIX_ROUNDS - from
  {
    if from < MAX_CI_FIX_ROUNDS && w.ci(from) != 0 {
      GreenMeans(w, s, from + 1);
    }
  }

  /** Before the deadline the run has, if it has one. */
  predicate OnTime(s: St, now: int) {
    s.deadline == None || now < s.deadline.value
  }

  /** A red check that the implementer's own session is sent in time and fixes. */
  predicate FixedInTime(w: World, s: St, r: nat) {
    && w.ci(r) !in {0, 127} && OnTime(s, w.fixNow(r)) && w.fixed(r)
    && "4" in s.sessions && s.sessions["4"] != ""
  }

  lemma FixesInWords(w: World, s: St, r: nat)
    ensures w.ci(r) != 0 && Fixes(w, s, r) <==> FixedInTime(w, s, r)
  {
  }

  /** The check of stage 5 comes out green at once, or after one or two red ones that were fixed. */
  lemma GreenInWords(w: World, s: St)
    ensures CiGreen(w, s) <==>
              || w.ci(0) == 0
              || (FixedInTime(w, s, 0) && (w.ci(1) == 0 || (FixedInTime(w, s, 1) && w.ci(2) == 0)))
  {
    FixesInWords(w, s, 0);
    FixesInWords(w, s, 1);
    assert GreenFrom(w, s, 2) == (w.ci(2) == 0);
    assert GreenFrom(w, s, 1) == (w.ci(1) == 0 || (Fixes(w, s, 1) && GreenFrom(w, s, 2)));
    assert GreenFrom(w, s, 0) == (w.ci(0) == 0 || (Fixes(w, s, 0) && GreenFrom(w, s, 1)));
  }

  /** Late: the first or the second fix round would start at or after the deadline. */
  lemma LateInWords(w: World, s: St)
    ensures CiLate(w, s) <==>
              || (w.ci(0) !in {0, 127} && !OnTime(s, w.fixNow(0)))
              || (FixedInTime(w, s, 0) && w.ci(1) !in {0, 127} && !OnTime(s, w.fixNow(1)))
  {
    FixesInWords(w, s, 0);
    assert !LateFrom(w, s, 2);
    assert LateFrom(w, s, 1) == (w.ci(1) !in {0, 127} && (Past(s, w.fixNow(1)) || (Fixes(w, s, 1) && LateFrom(w, s, 2))));
    assert LateFrom(w, s, 0) == (w.ci(0) !in {0, 127} && (Past(s, w.fixNow(0)) || (Fixes(w, s, 0) && LateFrom(w, s, 1))));
  }

  /** `_named_test_changes`: those deleted or renamed, and those rewritten. */
  method NamedTestChanges(names: seq<string>, before: map<string, seq<string>>, after: map<string, seq<string>>)
    returns (removed: seq<string>, edited: seq<string>)
    ensures forall name :: name in removed <==> name in names && name in before && name !in after
    ensures forall name :: name in edited <==> name in names && name in before && name in after && before[name] != after[name]
  {
    removed, edited := [], [];
    for i := 0 to |names|
      invariant forall name :: name in removed <==> name in names[..i] && name in before && name !in after
      invariant forall name :: name in edited <==> name in names[..i] && name in before && name in after && before[name] != after[name]
    {
      Snoc(names, i);
      if names[i] in before && names[i] !in after {
        removed := removed + [names[i]];
      } else if names[i] in before && before[names[i]] != after[names[i]] {
        edited := edited + [names[i]];
      }
    }
    assert names[..|names|] == names;
  }

  /** What opening the PR takes once the check is green. */
  predicate OpensWhenGreen(w: World, s: St) {
    && w.sweptAfterCi && HasBase(s, IMPLEMENT_STAGE) && NamedKept(w, ImplementBase(s))
    && w.issueDone && w.issueStillDone && w.pushed && w.prNumber.Some? && w.prSaved
  }

  /** The bookkeeping of stage 5 opens a PR. */
  predicate PrOpens(w: World, s: St) {
    w.preflight && CiGreen(w, s) && OpensWhenGreen(w, s)
  }

  /** A stage with an agent ends with its session on record. */
  predicate AgentDelivers(w: World, s: St, k: int) {
    && (k == ADDRESS_COMMENTS_STAGE ==> w.feedback && Resumable(s))
    && w.settled(k) && w.session(k).Some? && w.session(k).value != "" && w.sessionSaved(k) && w.rereads(k)
    && (k == SPEC_REVIEW_STAGE || k == TEST_AUTHOR_STAGE || k == IMPLEMENT_STAGE ==> w.swept(k))
  }

  function WithBase(w: World, s: St, k: int): St {
    if NeedsBase(k) && Key(k) !in s.bases && w.head(k).Some? then Based(s, k, w.head(k).value) else s
  }

  /** The state with the stage's own results in it. */
  function Worked(w: World, s: St, k: int): St {
    var based := WithBase(w, s, k);
    if k == PR_STAGE then based.(pr := w.prNumber)
    else if w.session(k).Some? then WithSession(based, k, w.session(k).value)
    else based
  }

  /** A stage that needs a base has one on record, or can record it. */
  predicate BaseIsThere(w: World, s: St, k: int) {
    NeedsBase(k) && Key(k) !in s.bases ==> w.head(k).Some? && w.baseSaved(k)
  }

  /** The stage's work succeeds. */
  predicate WorkSucceeds(w: World, s: St, k: int) {
    && (k > 1 ==> w.specReads(k))
    && BaseIsThere(w, s, k)
    && (if k == PR_STAGE then PrOpens(w, s) else AgentDelivers(w, s, k))
  }

  /** And its gate passes, and the sessions are proven. */
  predicate Passes(w: World, s: St, k: int) {
    && WorkSucceeds(w, s, k)
    && !w.gateRaises(k) && w.gate(k) && (NeedsBase(k) ==> HasBase(Worked(w, s, k), k))
    && SessionsProve(Worked(w, s, k).sessions, s.stage)
  }

  /** And the stage is committed. */
  predicate Commits(w: World, s: St, k: int) {
    Passes(w, s, k) && w.stageSaved(k)
  }

  /** And the loop goes on. */
  predicate Goes(w: World, s: St, k: int) {
    Commits(w, s, k) && !(k == PR_STAGE && w.ciGateRaises)
  }

  /** An error escapes: the gate's, that of the commit of `current_stage`, or that of gate CI. */
  predicate Escapes(w: World, s: St, k: int) {
    && WorkSucceeds(w, s, k)
    && (w.gateRaises(k) || (Passes(w, s, k) && (!w.stageSaved(k) || (k == PR_STAGE && w.ciGateRaises))))
  }

  /** `finish`: the outcome, unless the report cannot be written; None is an error that escapes. */
  function Ending(w: World, outcome: Outcome): Option<Outcome> {
    if w.reportSaved then Some(outcome) else None
  }

  /** How a stage that does not go ends the launch, and the stage it leaves on disk. */
  function StageFate(w: World, s: St, k: int): Option<Outcome> {
    if Escapes(w, s, k) then None else Ending(w, StopOf(w, s, k))
  }

  function StageArrives(w: World, s: St, k: int): int {
    if Commits(w, s, k) then k else s.stage
  }

  /** How a launch that found the state `s` ends. */
  function Fate(w: World, s: St): Option<Outcome>
    decreases LAST_STAGE - s.stage
  {
    if s.stage >= LAST_STAGE then Ending(w, Ok)
    else
      var k := NextStage(s);
      if Past(s, w.startNow(k)) then Ending(w, Partial)
      else if Goes(w, s, k) then Fate(w, Worked(w, s, k).(stage := k))
      else StageFate(w, s, k)
  }

  /** The stage it leaves on disk. */
  function Arrives(w: World, s: St): int
    decreases LAST_STAGE - s.stage
  {
    if s.stage >= LAST_STAGE then s.stage
    else
      var k := NextStage(s);
      if Past(s, w.startNow(k)) then s.stage
      else if Goes(w, s, k) then Arrives(w, Worked(w, s, k).(stage := k))
      else StageArrives(w, s, k)
  }

  /** The state as stage `k` finds it, if all before went. */
  function Found(w: World, s: St, k: int): St
    decreases k
  {
    if k <= NextStage(s) then s else Worked(w, Found(w, s, k - 1), k - 1).(stage := k - 1)
  }

  /** Stage `k` starts in time and goes, from what the stages before leave. */
  predicate InTimeAndGoes(w: World, s: St, k: int) {
    !Past(Found(w, s, k), w.startNow(k)) && Goes(w, Found(w, s, k), k)
  }

  predicate AllGo(w: World, s: St) {
    forall k :: NextStage(s) <= k <= LAST_STAGE ==> InTimeAndGoes(w, s, k)
  }

  /** The first stage, then the rest from what it leaves. */
  lemma AllGoSplits(w: World, s: St)
    requires s.stage < LAST_STAGE
    ensures var k := NextStage(s);
            AllGo(w, s) <==> !Past(s, w.startNow(k)) && Goes(w, s, k) && AllGo(w, Worked(w, s, k).(stage := k))
  {
    var k := NextStage(s);
    var next := Worked(w, s, k).(stage := k);
    assert Found(w, s, k) == s && NextStage(next) == k + 1;
    forall j | k < j <= LAST_STAGE ensures InTimeAndGoes(w, s, j) == InTimeAndGoes(w, next, j) {
      FoundLater(w, s, j);
    }
    assert AllGo(w, s) ==> InTimeAndGoes(w, s, k);
  }

  /** A launch is reported ok exactly when every stage past the one found starts in time and goes, and the report is
      written. */
  lemma {:induction false} OkMeans(w: World, s: St)
    ensures Fate(w, s) == Some(Ok) <==> AllGo(w, s) && w.reportSaved
    decreases LAST_STAGE - s.stage
  {
    if s.stage < LAST_STAGE {
      AllGoSplits(w, s);
      OkMeans(w, Worked(w, s, NextStage(s)).(stage := NextStage(s)));
    }
  }

  /** A write that fails where it is handled is reported, and leaves the stage on disk. */
  lemma HandledWritesAreReported(w: World, s: St, k: int)
    requires (if k == PR_STAGE then !w.prSaved else !w.sessionSaved(k)) || (NeedsBase(k) && Key(k) !in s.bases && !w.baseSaved(k))
    ensures StageArrives(w, s, k) == s.stage && StageFate(w, s, k) == Ending(w, StopOf(w, s, k))
    ensures k != PR_STAGE || CiGreen(w, s) ==> StageFate(w, s, k) == Ending(w, Failed)
  {
    GreenIsNotLate(w, s);
  }

  /** Stage `k` is reached: every stage from the one after the stage found starts in time and goes. */
  predicate Reaches(w: World, s: St, k: int) {
    && NextStage(s) <= k <= LAST_STAGE
    && forall j :: NextStage(s) <= j < k ==> OnTime(Found(w, s, j), w.startNow(j)) && Goes(w, Found(w, s, j), j)
  }

  /** Stage `k` is reached too late, or it is stage 5 and the time runs out between its fix rounds. */
  predicate RunsOut(w: World, s: St, k: int) {
    && Reaches(w, s, k)
    && var found := Found(w, s, k);
       || (found.deadline.Some? && w.startNow(k) >= found.deadline.value)
       || (k == 5 && w.specReads(5) && w.preflight && CiLate(w, found))
  }

  lemma RunsOutLater(w: World, s: St, k: int)
    requires s.stage < LAST_STAGE && NextStage(s) < k
    ensures RunsOut(w, s, k) <==>
            InTimeAndGoes(w, s, NextStage(s)) && RunsOut(w, Worked(w, s, NextStage(s)).(stage := NextStage(s)), k)
  {
    var first := NextStage(s);
    var next := Worked(w, s, first).(stage := first);
    assert NextStage(next) == first + 1;
    forall j | first < j <= k ensures Found(w, s, j) == Found(w, next, j) {
      FoundLater(w, s, j);
    }
    assert Reaches(w, s, k) <==> InTimeAndGoes(w, s, first) && Reaches(w, next, k);
  }

  /** At the stage a launch is about to start. */
  lemma RunsOutNow(w: World, s: St)
    requires s.stage < LAST_STAGE
    ensures var k := NextStage(s);
            RunsOut(w, s, k) <==>
              || (s.deadline.Some? && w.startNow(k) >= s.deadline.value)
              || (k == 5 && w.specReads(5) && w.preflight && CiLate(w, s))
  {
  }

  lemma PartialNow(w: World, s: St)
    requires s.stage < LAST_STAGE
    ensures var k, next := NextStage(s), Worked(w, s, NextStage(s)).(stage := NextStage(s));
            Fate(w, s) == Some(Partial) <==>
              (w.reportSaved && RunsOut(w, s, k)) || (InTimeAndGoes(w, s, k) && Fate(w, next) == Some(Partial))
  {
    var k := NextStage(s);
    RunsOutNow(w, s);
    assert Found(w, s, k) == s;
    if k == 5 && CiLate(w, s) {
      LateDoesNotGo(w, s, k);
    }
  }

  ghost predicate TimeRunsOut(w: World, s: St) {
    exists k :: RunsOut(w, s, k)
  }

  lemma TimeRunsOutNowOrLater(w: World, s: St)
    requires s.stage < LAST_STAGE
    ensures var k, next := NextStage(s), Worked(w, s, NextStage(s)).(stage := NextStage(s));
            TimeRunsOut(w, s) <==> RunsOut(w, s, k) || (InTimeAndGoes(w, s, k) && TimeRunsOut(w, next))
  {
    var k := NextStage(s);
    var next := Worked(w, s, k).(stage := k);
    if j :| RunsOut(w, s, j) {
      if k < j {
        RunsOutLater(w, s, j);
      }
    }
    if j :| RunsOut(w, next, j) {
      RunsOutLater(w, s, j);
    }
  }

  /** A launch comes out partial exactly when its report is written and the time runs out at some stage reached. */
  lemma {:induction false} PartialMeans(w: World, s: St)
    ensures Fate(w, s) == Some(Partial) <==> w.reportSaved && exists k :: RunsOut(w, s, k)
    decreases LAST_STAGE - s.stage
  {
    if s.stage < LAST_STAGE {
      PartialMeans(w, Worked(w, s, NextStage(s)).(stage := NextStage(s)));
      PartialNow(w, s);
      TimeRunsOutNowOrLater(w, s);
    }
  }

  /** A late fix loop neither goes nor lets an error escape. */
  lemma LateDoesNotGo(w: World, s: St, k: int)
    requires CiLate(w, s) && k == PR_STAGE
    ensures !Goes(w, s, k) && !Escapes(w, s, k)
  {
    GreenIsNotLate(w, s);
  }

  lemma OneOfFour(fate: Option<Outcome>, ok: bool, partial: bool, escapes: bool, saved: bool)
    requires (fate == Some(Ok) <==> ok && saved) && (fate == Some(Partial) <==> saved && partial) && (fate.None? <==> !saved || escapes)
    ensures fate == Some(Failed) <==> saved && !escapes && !ok && !partial
  {
    if fate.Some? {
      match fate.value
      case Ok =>
      case Partial =>
      case Failed =>
    }
  }

  /** Any other end that is reported and not ok is a failure. */
  lemma FailedMeans(w: World, s: St)
    ensures Fate(w, s) == Some(Failed) <==>
              && w.reportSaved && !(exists k :: EscapesAt(w, s, k)) && !AllGo(w, s) && !(exists k :: RunsOut(w, s, k))
  {
    OkMeans(w, s);
    RaisesMeans(w, s);
    PartialMeans(w, s);
    OneOfFour(Fate(w, s), AllGo(w, s), exists k :: RunsOut(w, s, k), exists k :: EscapesAt(w, s, k), w.reportSaved);
  }

  /** What a stage with an agent that has done its work leaves for the gate and the session check. */
  lemma WorkedMeans(w: World, s: St, k: int)
    requires 1 <= k <= 7 && k != 5 && w.session(k).Some?
    ensures Worked(w, s, k).sessions == s.sessions[Key(k) := w.session(k).value]
    ensures BaseIsThere(w, s, k) <==> (k in {3, 4} && Key(k) !in s.bases ==> w.head(k).Some? && w.baseSaved(k))
    ensures BaseIsThere(w, s, k) ==>
              ((NeedsBase(k) ==> HasBase(Worked(w, s, k), k)) <==>
               (k in {3, 4} ==> if Key(k) in s.bases then s.bases[Key(k)] != "" else w.head(k) != Some("")))
  {
  }

  /** All that it takes for a stage with an agent to go. */
  lemma AgentStageGoes(w: World, s: St, k: int)
    requires 1 <= k <= 7 && k != 5
    ensures Goes(w, s, k) <==>
              && (k == 1 || w.specReads(k))
              && (k in {3, 4} && Key(k) !in s.bases ==> w.head(k) !in {None, Some("")} && w.baseSaved(k))
              && (k in {3, 4} && Key(k) in s.bases ==> s.bases[Key(k)] != "")
              && (k == 7 ==> w.feedback && "4" in s.sessions && s.sessions["4"] != "")
              && w.settled(k) && w.session(k) !in {None, Some("")} && w.sessionSaved(k)
              && (k in {2, 3, 4} ==> w.swept(k)) && w.rereads(k)
              && !w.gateRaises(k) && w.gate(k) && w.stageSaved(k)
              && SessionsProve(s.sessions[Key(k) := if w.session(k).Some? then w.session(k).value else ""], s.stage)
  {
    if w.session(k).Some? {
      WorkedMeans(w, s, k);
    }
  }

  /** All that it takes for stage 5. */
  lemma PrStageGoes(w: World, s: St)
    ensures Goes(w, s, 5) <==>
              && w.specReads(5) && w.preflight && CiGreen(w, s) && w.sweptAfterCi
              && "4" in s.bases && s.bases["4"] != ""
              && w.testsAt(s.bases["4"]).Some? && w.testsAt("HEAD").Some?
              && (forall i :: 0 <= i < |w.names| && w.names[i] in w.testsAt(s.bases["4"]).value ==> w.names[i] in w.testsAt("HEAD").value)
              && w.issueDone && w.issueStillDone && w.pushed && w.prNumber.Some? && w.prSaved
              && !w.gateRaises(5) && w.gate(5) && SessionsProve(s.sessions, s.stage) && w.stageSaved(5) && !w.ciGateRaises
  {
  }

  /** All that it takes for an error to escape from a stage with an agent: its work done, the gate raises, or everything
      passes and the commit fails. */
  lemma AgentStageEscapes(w: World, s: St, k: int)
    requires 1 <= k <= 7 && k != 5
    ensures Escapes(w, s, k) <==>
              && (k == 1 || w.specReads(k))
              && (k in {3, 4} && Key(k) !in s.bases ==> w.head(k).Some? && w.baseSaved(k))
              && (k == 7 ==> w.feedback && "4" in s.sessions && s.sessions["4"] != "")
              && w.settled(k) && w.session(k) !in {None, Some("")} && w.sessionSaved(k)
              && (k in {2, 3, 4} ==> w.swept(k)) && w.rereads(k)
              && (|| w.gateRaises(k)
                  || (&& w.gate(k) && !w.stageSaved(k)
                      && (k in {3, 4} ==> if Key(k) in s.bases then s.bases[Key(k)] != "" else w.head(k) != Some(""))
                      && SessionsProve(s.sessions[Key(k) := if w.session(k).Some? then w.session(k).value else ""], s.stage)))
  {
    if w.session(k).Some? {
      WorkedMeans(w, s, k);
    }
  }

  /** And from stage 5, where gate CI may raise after the commit. */
  lemma PrStageEscapes(w: World, s: St)
    ensures Escapes(w, s, 5) <==>
              && w.specReads(5) && w.preflight && CiGreen(w, s) && w.sweptAfterCi
              && "4" in s.bases && s.bases["4"] != ""
              && w.testsAt(s.bases["4"]).Some? && w.testsAt("HEAD").Some?
              && (forall i :: 0 <= i < |w.names| && w.names[i] in w.testsAt(s.bases["4"]).value ==> w.names[i] in w.testsAt("HEAD").value)
              && w.issueDone && w.issueStillDone && w.pushed && w.prNumber.Some? && w.prSaved
              && (w.gateRaises(5) || (w.gate(5) && SessionsProve(s.sessions, s.stage) && (!w.stageSaved(5) || w.ciGateRaises)))
  {
  }

  lemma {:induction false} AllGoArrives(w: World, s: St)
    requires AllGo(w, s) && s.stage <= LAST_STAGE
    ensures Arrives(w, s) == LAST_STAGE
    decreases LAST_STAGE - s.stage
  {
    if s.stage < LAST_STAGE {
      AllGoSplits(w, s);
      AllGoArrives(w, Worked(w, s, NextStage(s)).(stage := NextStage(s)));
    }
  }

  /** An error escapes at stage `k`, which starts in time from what the stages before leave. */
  predicate EscapesAt(w: World, s: St, k: int) {
    && NextStage(s) <= k <= LAST_STAGE
    && (forall j :: NextStage(s) <= j < k ==> InTimeAndGoes(w, s, j))
    && !Past(Found(w, s, k), w.startNow(k)) && Escapes(w, Found(w, s, k), k)
  }

  /** At a later stage, from what the first leaves. */
  lemma EscapesLater(w: World, s: St, k: int)
    requires s.stage < LAST_STAGE && NextStage(s) < k
    ensures EscapesAt(w, s, k) <==>
            InTimeAndGoes(w, s, NextStage(s)) && EscapesAt(w, Worked(w, s, NextStage(s)).(stage := NextStage(s)), k)
  {
    var first := NextStage(s);
    var next := Worked(w, s, first).(stage := first);
    assert NextStage(next) == first + 1;
    forall j | first < j <= k ensures Found(w, s, j) == Found(w, next, j) && InTimeAndGoes(w, s, j) == InTimeAndGoes(w, next, j) {
      FoundLater(w, s, j);
    }
  }

  /** "Never raises" holds exactly when the report can be written and, at the stages reached, no gate meets an error its
      handlers do not catch and no commit of `current_stage` fails; every other failure is reported. */
  lemma {:induction false} RaisesMeans(w: World, s: St)
    ensures Fate(w, s).None? <==> !w.reportSaved || exists k :: EscapesAt(w, s, k)
    decreases LAST_STAGE - s.stage
  {
    if s.stage < LAST_STAGE {
      var k := NextStage(s);
      var next := Worked(w, s, k).(stage := k);
      assert Found(w, s, k) == s;
      RaisesMeans(w, next);
      forall j | k < j ensures EscapesAt(w, s, j) <==> InTimeAndGoes(w, s, k) && EscapesAt(w, next, j) {
        EscapesLater(w, s, j);
      }
      assert EscapesAt(w, s, k) <==> !Past(s, w.startNow(k)) && Escapes(w, s, k);
      assert forall j :: EscapesAt(w, next, j) ==> k < j;
    }
  }

  /** Where an error escapes is what the launch leaves on disk. */
  lemma {:induction false} EscapeArrives(w: World, s: St, k: int)
    requires EscapesAt(w, s, k)
    ensures Arrives(w, s) == StageArrives(w, Found(w, s, k), k)
    decreases LAST_STAGE - s.stage
  {
    var first := NextStage(s);
    assert Found(w, s, first) == s;
    if first < k {
      EscapesLater(w, s, k);
      FoundLater(w, s, k);
      assert InTimeAndGoes(w, s, first);
      EscapeArrives(w, Worked(w, s, first).(stage := first), k);
    }
  }

  lemma {:induction false} FoundLater(w: World, s: St, j: int)
    requires NextStage(s) < j
    ensures Found(w, s, j) == Found(w, Worked(w, s, NextStage(s)).(stage := NextStage(s)), j)
    decreases j
  {
    if j > NextStage(s) + 1 {
      FoundLater(w, s, j - 1);
    }
  }

  /** What a stage that does not go is reported as. */
  function StopOf(w: World, s: St, k: int): Outcome {
    if k == PR_STAGE && w.specReads(k) && w.preflight && CiLate(w, s) then Partial else Failed
  }

  /** Without the document it was read from, which decides nothing. */
  function Core(s: St): St {
    s.(raw := map[])
  }

  lemma KeptIffNoneRemoved(w: World, base: string, removed: seq<string>)
    requires TestsRead(w, base)
    requires forall name :: name in removed <==> name in w.names && name in w.testsAt(base).value && name !in w.testsAt(HEAD).value
    ensures NamedKept(w, base) <==> removed == []
  {
    if removed != [] {
      assert removed[0] in removed && removed[0] in w.names;
    }
    if !NamedKept(w, base) {
      var i :| 0 <= i < |w.names| && w.names[i] in w.testsAt(base).value && w.names[i] !in w.testsAt(HEAD).value;
      assert w.names[i] in removed;
    }
  }

  /** What comes of a stage whose work is done. */
  datatype Verdict = Fine | Refused | Raised

  /** What one turn of the fix loop comes to. */
  datatype CiTurn = Again | TurnsGreen | Stops(outcome: Outcome, at: int)

  /** Where a process stands that is about to check. */
  function CheckAt(round: nat): Pc {
    if round == 0 then Started(PR_STAGE) else Fixed(round)
  }

  /** The world a launch meets, the stage on disk, and the process. */
  datatype Stand = Stand(world: World, stage: int, mem: Option<St>, pc: Pc)

  ghost predicate Reportable(x: Stand, w: World, stage: int) {
    x.world == w && x.stage == stage && !x.pc.Reported? && !x.pc.Idle?
  }

  /** The stage the document has on record. */
  predicate DiskStage(norm: Norm, d: StateDoc, stage: int) {
    Read(norm, d).Some? && Read(norm, d).value.stage == stage
  }

  /** One run: the document on disk and, for the proof, everything its launches did and were told. */
  class Pipeline {
    const norm: Norm
    ghost const d0: StateDoc
    var doc: StateDoc
    ghost var log: seq<Event>
    ghost var worlds: seq<World>
    ghost var m: Machine

    ghost predicate Valid()
      reads this
    {
      Normal(norm) && After(norm, d0, log) == Some(m) && m.doc == doc && Told(norm, d0, log, worlds)
    }

    /** The current launch meets the world `w`. */
    ghost predicate Under(w: World)
      reads this
    {
      Valid() && worlds != [] && Latest(worlds) == w
    }

    /** Where the launch stands, as long as the document on disk reads. */
    ghost function Stands(): Option<Stand>
      reads this
    {
      if Valid() && worlds != [] && Read(norm, doc).Some? && (m.mem.Some? ==> WellRead(norm, m.mem.value)) then
        Some(Stand(Latest(worlds), Read(norm, doc).value.stage, m.mem, m.pc))
      else
        None
    }

    /** The process holds `s`, as its stage is on disk, and stands at `pc`. */
    ghost predicate Holds(w: World, s: St, pc: Pc)
      reads this
    {
      Stands() == Some(Stand(w, s.stage, Some(s), pc))
    }

    /** The process can still report, and the stage on disk is `stage`. */
    ghost predicate Stuck(w: World, stage: int)
      reads this
    {
      Stands().Some? && Reportable(Stands().value, w, stage)
    }

    /** A fix round would start past the deadline now. */
    ghost predicate Late(w: World, now: int)
      reads this
    {
      && m.mem.Some? && Past(m.mem.value, now)
      && m.pc.Red? && m.pc.code != 127 && m.pc.round < MAX_CI_FIX_ROUNDS && now == w.fixNow(m.pc.round)
    }

    constructor (norm: Norm, d0: StateDoc)
      requires Normal(norm)
      ensures Valid() && doc == d0 && this.d0 == d0 && this.norm == norm && log == []
    {
      this.norm, this.d0, doc := norm, d0, d0;
      log, worlds, m := [], [], Machine(d0, None, Idle);
    }

    /** An event, as the world has it: logged with the world it was told by. */
    ghost method Note(w: World, e: Event)
      requires Normal(norm) && After(norm, d0, log) == Some(m) && Told(norm, d0, log, worlds)
      requires Enabled(m, e) && Truthful(w, m, e)
      requires e.Launch? || (worlds != [] && Latest(worlds) == w)
      modifies this`log, this`worlds, this`m
      ensures After(norm, d0, log) == Some(m) && Told(norm, d0, log, worlds)
      ensures m == Next(norm, old(m), e) && log == old(log) + [e] && worlds == old(worlds) + [w]
    {
      ToldGrows(norm, d0, log, worlds, w, e);
      assert (log + [e])[..|log|] == log;
      m := Next(norm, m, e);
      log := log + [e];
      worlds := worlds + [w];
    }

    /** An event that leaves the file alone. */
    ghost method Do(w: World, e: Event)
      requires Valid() && Enabled(m, e) && Truthful(w, m, e) && Next(norm, m, e).doc == doc
      requires e.Launch? || Under(w)
      modifies this`log, this`worlds, this`m
      ensures Under(w) && m == Next(norm, old(m), e) && log == old(log) + [e]
    {
      Note(w, e);
    }

    /** `write_state_json`: one atomic replace. */
    method Write(ghost w: World, s: St, ghost e: Event)
      requires Under(w) && Enabled(m, e) && Truthful(w, m, e) && Next(norm, m, e).doc == Payload(s) && WellRead(norm, s)
      requires !e.Launch?
      modifies this
      ensures Under(w) && m == Next(norm, old(m), e) && log == old(log) + [e]
      ensures doc == Payload(s) && Read(norm, doc) == Some(s.(raw := doc))
    {
      ReadPayload(norm, s);
      Note(w, e);
      doc := Payload(s);
    }

    /** The launch is over: reported, or by an error that escaped without a report. */
    ghost predicate Ended(w: World, outcome: Option<Outcome>, stage: int)
      reads this
    {
      Under(w) && Over(outcome) && DiskStage(norm, doc, stage)
    }

    ghost predicate Over(outcome: Option<Outcome>)
      reads this
    {
      if outcome.Some? then m.pc == Reported(outcome.value) else !m.pc.Reported?
    }

    /** `finish`: the report, whatever happened. */
    method Finish(w: World, outcome: Outcome, ghost now: int) returns (r: Option<Outcome>)
      requires Under(w) && Enabled(m, Report(outcome, now)) && InTime(w, m, outcome, now)
      modifies this`log, this`worlds, this`m
      ensures Under(w) && old(log) <= log && doc == old(doc) && r == Ending(w, outcome) && Over(r)
    {
      if !w.reportSaved {
        return None;
      }
      Do(w, Report(outcome, now));
      r := Some(outcome);
    }

    /** The report of a stage that stopped: partial only when a fix round came too late. */
    method Stop(w: World, outcome: Outcome, ghost now: int, ghost stage: int) returns (r: Option<Outcome>)
      requires Stuck(w, stage) && (outcome == Failed || (outcome == Partial && Late(w, now)))
      modifies this`log, this`worlds, this`m
      ensures old(log) <= log && r == Ending(w, outcome) && Ended(w, r, stage)
    {
      r := Finish(w, outcome, now);
    }

    /** An error escapes. */
    lemma Escaped(w: World, stage: int)
      requires Stuck(w, stage)
      ensures Ended(w, None, stage)
    {
    }

    /** `_record_base`: once. */
    method RecordStageBase(w: World, k: int, s: St) returns (r: Option<St>)
      requires Holds(w, s, Started(k)) && NeedsBase(k)
      modifies this
      ensures old(log) <= log
      ensures r.Some? <==> Key(k) in s.bases || (w.head(k).Some? && w.baseSaved(k))
      ensures r.Some? ==> Holds(w, r.value, Started(k)) && r.value == WithBase(w, s, k)
      ensures r.None? ==> Holds(w, s, Started(k)) && doc == old(doc)
    {
      if Key(k) in s.bases {
        return Some(s);
      }
      if w.head(k).None? || !w.baseSaved(k) {
        return None;
      }
      var based := Based(s, k, w.head(k).value);
      Write(w, based, RecordBase(k, w.head(k).value));
      r := Some(based);
    }

    /** `_run_agent_stage`, then the sweep and the re-read. */
    method RunAgent(w: World, k: int, s: St) returns (r: Option<St>)
      requires Holds(w, s, Started(k)) && k != PR_STAGE && (NeedsBase(k) ==> Key(k) in s.bases)
      modifies this
      ensures old(log) <= log
      ensures r.Some? <==> AgentDelivers(w, s, k)
      ensures r.Some? ==> Holds(w, r.value, Settled(k)) && Core(r.value) == Core(WithSession(s, k, w.session(k).value))
      ensures r.None? ==> Stuck(w, s.stage)
    {
      if k == ADDRESS_COMMENTS_STAGE && (!w.feedback || !Resumable(s)) {
        return None;
      }
      if !w.settled(k) {
        return None;
      }
      var id := w.session(k);
      if id.None? || id.value == "" || !w.sessionSaved(k) {
        return None;
      }
      RecordSessionId(w, k, s, id.value);
      if (k == SPEC_REVIEW_STAGE || k == TEST_AUTHOR_STAGE || k == IMPLEMENT_STAGE) && !w.swept(k) {
        return None;
      }
      if !w.rereads(k) {
        return None;
      }
      var read := RereadState(w, k, s, id.value);
      r := Some(read);
    }

    /** The id the agent reported is committed alone; the state in memory is not the one written. */
    method RecordSessionId(ghost w: World, k: int, s: St, id: string)
      requires Holds(w, s, Started(k)) && Moves(s, Started(k), RecordSession(k, id))
      requires w.settled(k) && w.session(k) == Some(id) && w.sessionSaved(k)
      modifies this
      ensures old(log) <= log && Holds(w, s, Recorded(k)) && Read(norm, doc) == Some(WithSession(s, k, id).(raw := doc))
    {
      Write(w, WithSession(s, k, id), RecordSession(k, id));
    }

    /** `_State.read` after the stage. */
    method RereadState(ghost w: World, k: int, s: St, ghost id: string) returns (read: St)
      requires Holds(w, s, Recorded(k)) && Read(norm, doc) == Some(WithSession(s, k, id).(raw := doc)) && w.rereads(k)
      modifies this`log, this`worlds, this`m
      ensures old(log) <= log && doc == old(doc)
      ensures Holds(w, read, Settled(k)) && Core(read) == Core(WithSession(s, k, id))
    {
      Do(w, Reread);
      read := Read(norm, doc).value;
    }

    /** The next CI check is that of round `round`. */
    ghost predicate MayCheck(w: World, s: St, round: nat)
      reads this
    {
      Holds(w, s, CheckAt(round)) && (round > 0 ==> w.fixed(round - 1))
    }

    /** Where the fix loop stands when it is about to start round `round`; `green` and `late` are how the whole loop
        comes out. */
    ghost predicate Turned(w: World, s: St, round: nat, turn: CiTurn, green: bool, late: bool)
      reads this
    {
      match turn
      case Again => MayCheck(w, s, round) && ComesOut(w, s, round, green, late)
      case TurnsGreen => Holds(w, s, Green) && green
      case Stops(outcome, at) =>
        && Stuck(w, s.stage) && (outcome == Partial ==> Late(w, at)) && !green
        && outcome == (if late then Partial else Failed)
    }

    /** One turn of `_ci_fix_loop`: the check and, when it is red and a round is allowed, the round. */
    method CheckAndFix(w: World, s: St, round: nat, ghost green: bool, ghost late: bool) returns (turn: CiTurn)
      requires round <= MAX_CI_FIX_ROUNDS && Turned(w, s, round, Again, green, late)
      modifies this`log, this`worlds, this`m
      ensures old(log) <= log && doc == old(doc)
      ensures turn.Again? <==> w.ci(round) != 0 && round < MAX_CI_FIX_ROUNDS && Fixes(w, s, round)
      ensures Turned(w, s, round + 1, turn, green, late)
    {
      var code := RunCheck(w, s, round);
      DecidedIn(w, s, round, green, late);
      if code == 0 {
        return TurnsGreen;
      }
      if code == 127 || round == MAX_CI_FIX_ROUNDS {
        return Stops(Failed, 0);
      }
      var at := w.fixNow(round);
      if Past(s, at) {
        return Stops(Partial, at);
      }
      var fixed := FixOnce(w, s, round, code);
      turn := if fixed then Again else Stops(Failed, at);
    }

    /** `_run_ci_check`. */
    method RunCheck(w: World, s: St, round: nat) returns (code: int)
      requires MayCheck(w, s, round)
      modifies this`log, this`worlds, this`m
      ensures old(log) <= log && doc == old(doc)
      ensures code == w.ci(round) && Holds(w, s, if code == 0 then Green else Red(round, code))
    {
      code := w.ci(round);
      CheckMayRun(norm, w, m, s, round);
      Do(w, CiCheck(code));
    }

    /** One fix round, in the implementer's own session. */
    method FixOnce(w: World, s: St, round: nat, code: int) returns (fixed: bool)
      requires Holds(w, s, Red(round, code)) && CanFix(s, round, code, w.fixNow(round))
      modifies this`log, this`worlds, this`m
      ensures old(log) <= log && doc == old(doc) && Stuck(w, s.stage)
      ensures fixed <==> Resumable(s) && w.fixed(round)
      ensures fixed ==> Holds(w, s, Fixed(round + 1))
    {
      if !Resumable(s) {
        return false;
      }
      StartRound(w, s, round, code);
      fixed := w.fixed(round);
    }

    /** The agent is sent the failure. */
    ghost method StartRound(w: World, s: St, round: nat, code: int)
      requires Holds(w, s, Red(round, code)) && CanFix(s, round, code, w.fixNow(round)) && Resumable(s)
      modifies this`log, this`worlds, this`m
      ensures old(log) <= log && Holds(w, s, Fixed(round + 1))
    {
      RoundStarts(norm, m, s, round, code, w.fixNow(round));
      Do(w, FixRound(w.fixNow(round)));
    }

    /** The loop over the rounds from `first` on. */
    method FixFrom(w: World, s: St, first: nat, ghost green: bool, ghost late: bool) returns (turn: CiTurn)
      requires first <= MAX_CI_FIX_ROUNDS && Turned(w, s, first, Again, green, late)
      modifies this`log, this`worlds, this`m
      ensures old(log) <= log && doc == old(doc)
      ensures !turn.Again? && Turned(w, s, first, turn, green, late)
    {
      var round: nat := first;
      turn := Again;
      while turn.Again?
        invariant old(log) <= log && doc == old(doc)
        invariant turn.Again? ==> round <= MAX_CI_FIX_ROUNDS
        invariant Turned(w, s, round, turn, green, late)
        decreases if turn.Again? then MAX_CI_FIX_ROUNDS + 1 - round else 0
      {
        turn := CheckAndFix(w, s, round, green, late);
        round := round + 1;
      }
    }

    /** `_ci_fix_loop`: the check, then at most two rounds of fixing and checking again. */
    method FixCi(w: World, s: St) returns (turn: CiTurn)
      requires Holds(w, s, Started(PR_STAGE))
      modifies this`log, this`worlds, this`m
      ensures old(log) <= log && doc == old(doc)
      ensures !turn.Again? && Turned(w, s, 0, turn, CiGreen(w, s), CiLate(w, s))
    {
      turn := FixFrom(w, s, 0, CiGreen(w, s), CiLate(w, s));
    }

    /** The rest of `_bookkeeping`: the named tests on HEAD after the last fix round, then the issue flip. */
    method CloseTheIssue(w: World, s: St) returns (closed: bool)
      requires Holds(w, s, Green)
      modifies this`log, this`worlds, this`m
      ensures old(log) <= log && doc == old(doc)
      ensures closed <==> w.sweptAfterCi && HasBase(s, IMPLEMENT_STAGE) && NamedKept(w, ImplementBase(s)) && w.issueDone
      ensures closed ==> Holds(w, s, Flipped)
      ensures !closed ==> Stuck(w, s.stage)
    {
      if !w.sweptAfterCi || !HasBase(s, IMPLEMENT_STAGE) || !TestsRead(w, ImplementBase(s)) {
        return false;
      }
      var base := ImplementBase(s);
      var removed, _ := NamedTestChanges(w.names, w.testsAt(base).value, w.testsAt(HEAD).value);
      KeptIffNoneRemoved(w, base, removed);
      Do(w, NamedTests(removed != []));
      if removed != [] {
        return false;
      }
      Do(w, IssueDone(w.issueDone));
      closed := w.issueDone;
    }

    /** `_open_pr`: refuses again when the issue is not done, then pushes, then opens. */
    method OpenThePr(w: World, s: St) returns (r: Option<St>)
      requires Holds(w, s, Flipped)
      modifies this
      ensures old(log) <= log
      ensures r.Some? <==> w.issueStillDone && w.pushed && w.prNumber.Some? && w.prSaved
      ensures r.Some? ==> Holds(w, r.value, Settled(PR_STAGE)) && r.value == s.(pr := w.prNumber)
      ensures r.None? ==> Stuck(w, s.stage) && doc == old(doc)
    {
      Do(w, IssueDone(w.issueStillDone));
      if !w.issueStillDone {
        return None;
      }
      var done := PushAndOpen(w, s);
      if !done {
        return None;
      }
      r := SaveThePr(w, s);
    }

    /** `git push`, then `gh pr create`. */
    method PushAndOpen(w: World, s: St) returns (done: bool)
      requires Holds(w, s, Clear)
      modifies this`log, this`worlds, this`m
      ensures old(log) <= log && doc == old(doc)
      ensures done <==> w.pushed && w.prNumber.Some?
      ensures if done then Holds(w, s, Opened(w.prNumber.value)) else Stuck(w, s.stage)
    {
      Do(w, Push);
      done := w.pushed && w.prNumber.Some?;
      if done {
        Do(w, OpenPr(w.prNumber.value));
      }
    }

    /** The commit of the number, if it can be written. */
    method SaveThePr(w: World, s: St) returns (r: Option<St>)
      requires w.prNumber.Some? && Holds(w, s, Opened(w.prNumber.value))
      modifies this
      ensures old(log) <= log
      ensures r.Some? <==> w.prSaved
      ensures r.Some? ==> Holds(w, r.value, Settled(PR_STAGE)) && r.value == s.(pr := w.prNumber)
      ensures r.None? ==> Stuck(w, s.stage) && doc == old(doc)
    {
      r := None;
      if w.prSaved {
        var after := RecordThePr(w, s, w.prNumber.value);
        r := Some(after);
      }
    }

    /** The number `gh pr create` gave, committed. */
    method RecordThePr(ghost w: World, s: St, number: int) returns (after: St)
      requires Holds(w, s, Opened(number)) && w.prSaved
      modifies this
      ensures old(log) <= log && Holds(w, after, Settled(PR_STAGE)) && after == s.(pr := Some(number))
    {
      after := s.(pr := Some(number));
      Write(w, after, RecordPr(number));
    }

    /** Stage 5, with no agent in charge. */
    method RunPrStage(w: World, s: St) returns (r: Option<St>, stop: Outcome, at: int)
      requires Holds(w, s, Started(PR_STAGE))
      modifies this
      ensures old(log) <= log
      ensures r.Some? <==> PrOpens(w, s)
      ensures r.Some? ==> Holds(w, r.value, Settled(PR_STAGE)) && r.value == s.(pr := w.prNumber)
      ensures r.None? ==> Stuck(w, s.stage) && (stop == Partial ==> Late(w, at)) && stop == (if w.preflight && CiLate(w, s) then Partial else Failed)
    {
      if !w.preflight {
        return None, Failed, 0;
      }
      var turn := FixCi(w, s);
      if turn.Stops? {
        return None, turn.outcome, turn.at;
      }
      GreenIsNotLate(w, s);
      stop, at := Failed, 0;
      r := OpenWhenGreen(w, s);
    }

    /** The check is green: the named tests, the issue flip, the push and the PR. */
    method OpenWhenGreen(w: World, s: St) returns (r: Option<St>)
      requires Holds(w, s, Green)
      modifies this
      ensures old(log) <= log
      ensures r.Some? <==> OpensWhenGreen(w, s)
      ensures r.Some? ==> Holds(w, r.value, Settled(PR_STAGE)) && r.value == s.(pr := w.prNumber)
      ensures r.None? ==> Stuck(w, s.stage) && doc == old(doc)
    {
      var closed := CloseTheIssue(w, s);
      if !closed {
        return None;
      }
      r := OpenThePr(w, s);
    }

    /** The gate. */
    method JudgeGate(w: World, k: int, s: St) returns (v: Verdict)
      requires Holds(w, s, Settled(k))
      modifies this`log, this`worlds, this`m
      ensures old(log) <= log && doc == old(doc)
      ensures v.Raised? <==> w.gateRaises(k)
      ensures v.Fine? <==> !w.gateRaises(k) && w.gate(k) && (NeedsBase(k) ==> HasBase(s, k))
      ensures if v.Fine? then Holds(w, s, Passed(k)) else Stuck(w, s.stage)
    {
      if w.gateRaises(k) {
        return Raised;
      }
      var passed := w.gate(k) && (NeedsBase(k) ==> HasBase(s, k));
      Do(w, Gate(k, passed));
      v := if passed then Fine else Refused;
    }

    /** The commit of `current_stage`, which nothing guards. */
    method CommitStage(ghost w: World, k: int, s: St)
      requires Holds(w, s, Passed(k)) && SessionsProve(s.sessions, s.stage) && w.stageSaved(k)
      modifies this
      ensures old(log) <= log && Holds(w, s.(stage := k), Between)
    {
      AdvanceWrites(norm, m, s, k);
      Write(w, s.(stage := k), Advance(k));
    }

    /** The gate, the session check, the commit and, behind stage 5's, gate CI. */
    method Judge(w: World, k: int, s: St) returns (v: Verdict)
      requires Holds(w, s, Settled(k))
      modifies this
      ensures old(log) <= log && v == VerdictOn(w, s, k)
      ensures v.Fine? ==> Holds(w, s.(stage := k), Between)
      ensures !v.Fine? ==> Stuck(w, if Approved(w, s, k) && w.stageSaved(k) then k else s.stage)
      ensures !(Approved(w, s, k) && w.stageSaved(k)) ==> doc == old(doc)
    {
      v := JudgeGate(w, k, s);
      if !v.Fine? {
        return;
      }
      if !SessionsProve(s.sessions, s.stage) {
        return Refused;
      }
      if !w.stageSaved(k) {
        return Raised;
      }
      CommitStage(w, k, s);
      if k == PR_STAGE && w.ciGateRaises {
        v := Raised;
      }
    }

    /** The work of one stage, up to its gate. */
    method Work(w: World, k: int, s: St) returns (r: Option<St>, stop: Outcome, at: int)
      requires Holds(w, s, Started(k))
      modifies this
      ensures old(log) <= log
      ensures r.Some? <==> WorkSucceeds(w, s, k)
      ensures r.Some? ==> Holds(w, r.value, Settled(k)) && Core(r.value) == Core(Worked(w, s, k))
      ensures r.None? ==> Stuck(w, s.stage) && (stop == Partial ==> Late(w, at)) && stop == StopOf(w, s, k)
    {
      at, stop, r := 0, Failed, None;
      if k > 1 && !w.specReads(k) {
        return;
      }
      if k == PR_STAGE {
        r, stop, at := RunPrStage(w, s);
        return;
      }
      r := WorkOfAgent(w, k, s);
    }

    /** A stage with an agent: the base first, where one is needed. */
    method WorkOfAgent(w: World, k: int, s: St) returns (r: Option<St>)
      requires Holds(w, s, Started(k)) && k != PR_STAGE
      modifies this
      ensures old(log) <= log
      ensures r.Some? <==> BaseIsThere(w, s, k) && AgentDelivers(w, s, k)
      ensures r.Some? ==> Holds(w, r.value, Settled(k)) && Core(r.value) == Core(Worked(w, s, k))
      ensures r.None? ==> Stuck(w, s.stage)
    {
      var based := Some(s);
      if NeedsBase(k) {
        based := RecordStageBase(w, k, s);
        if based.None? {
          return None;
        }
      }
      DeliversOnBase(w, s, k);
      r := RunAgent(w, k, based.value);
    }

    /** A stage that has started: its work, then its gate; or the end of the launch. */
    method FinishStage(w: World, k: int, s: St) returns (next: Option<St>, outcome: Option<Outcome>)
      requires Holds(w, s, Started(k))
      modifies this
      ensures old(log) <= log
      ensures next.Some? <==> Goes(w, s, k)
      ensures next.Some? ==> Holds(w, next.value, Between) && Core(next.value) == Core(Worked(w, s, k).(stage := k))
      ensures next.None? ==> outcome == StageFate(w, s, k) && Ended(w, outcome, StageArrives(w, s, k))
    {
      var worked, halt, at := Work(w, k, s);
      next := None;
      if worked.None? {
        outcome := Stop(w, halt, at, s.stage);
        return;
      }
      JudgedAlike(w, s, k, worked.value);
      next, outcome := JudgeOrStop(w, k, worked.value);
    }

    /** The verdict on a stage whose work is done. */
    method JudgeOrStop(w: World, k: int, s: St) returns (next: Option<St>, outcome: Option<Outcome>)
      requires Holds(w, s, Settled(k))
      modifies this
      ensures old(log) <= log
      ensures next.Some? <==> VerdictOn(w, s, k).Fine?
      ensures next.Some? ==> next.value == s.(stage := k) && Holds(w, next.value, Between)
      ensures next.None? ==> outcome == if VerdictOn(w, s, k).Raised? then None else Ending(w, Failed)
      ensures next.None? ==> Ended(w, outcome, if Approved(w, s, k) && w.stageSaved(k) then k else s.stage)
    {
      var v := Judge(w, k, s);
      next, outcome := None, None;
      match v
      case Fine => next := Some(s.(stage := k));
      case Refused => outcome := Stop(w, Failed, 0, s.stage);
      case Raised => Escaped(w, if Approved(w, s, k) && w.stageSaved(k) then k else s.stage);
    }

    /** One turn of the loop. */
    method RunStage(w: World, s: St) returns (next: Option<St>, outcome: Option<Outcome>)
      requires Holds(w, s, Between) && s.stage < LAST_STAGE
      modifies this
      ensures old(log) <= log
      ensures next.Some? ==> Holds(w, next.value, Between) && next.value.stage == NextStage(s) && SameFate(w, Core(s), Core(next.value))
      ensures next.None? ==> outcome == Fate(w, Core(s)) && Ended(w, outcome, Arrives(w, Core(s)))
      ensures s.deadline.Some? && w.startNow(NextStage(s)) >= s.deadline.value ==>
                next.None? && outcome == if w.reportSaved then Some(Partial) else None
    {
      var k := NextStage(s);
      var now := w.startNow(k);
      if Past(s, now) {
        next := None;
        outcome := TooLate(w, s, now);
        return;
      }
      FateOfOneStage(w, s);
      BeginStage(w, s, now);
      next, outcome := FinishStage(w, k, s);
    }

    ghost method BeginStage(w: World, s: St, now: int)
      requires Holds(w, s, Between) && s.stage < LAST_STAGE && now == w.startNow(NextStage(s)) && !Past(s, now)
      modifies this`log, this`worlds, this`m
      ensures old(log) <= log && Holds(w, s, Started(NextStage(s)))
    {
      Do(w, Start(now));
    }

    /** The deadline is past before a stage starts. */
    method TooLate(w: World, s: St, now: int) returns (outcome: Option<Outcome>)
      requires Holds(w, s, Between) && s.stage < LAST_STAGE && now == w.startNow(NextStage(s)) && Past(s, now)
      modifies this`log, this`worlds, this`m
      ensures old(log) <= log && outcome == Fate(w, Core(s)) && Ended(w, outcome, Arrives(w, Core(s)))
      ensures outcome == if w.reportSaved then Some(Partial) else None
    {
      outcome := Finish(w, Partial, now);
    }

    /** One launch: every stage past the one on record, each behind its gate, and a report at the end, unless an error
        escapes (None). It leaves on disk the last stage it committed. */
    method Run(w: World) returns (outcome: Option<Outcome>)
      requires Valid()
      modifies this
      ensures Under(w) && old(log) <= log && Over(outcome)
      ensures Read(norm, old(doc)).None? || !w.originNamed ==> outcome == Ending(w, Failed) && doc == old(doc)
      ensures Read(norm, old(doc)).Some? && w.originNamed ==>
                var found := Core(Read(norm, old(doc)).value);
                && outcome == Fate(w, found) && DiskStage(norm, doc, Arrives(w, found))
                && (outcome == Some(Partial) <==> w.reportSaved && TimeRunsOut(w, found))
    {
      Do(w, Launch);
      var found := Read(norm, doc);
      if found.None? || !w.originNamed {
        outcome := Finish(w, Failed, 0);
        return;
      }
      ReadIsWellRead(norm, doc);
      PartialMeans(w, Core(found.value));
      outcome := RunStages(w, found.value);
    }

    /** The loop over the stages. */
    method RunStages(w: World, found: St) returns (outcome: Option<Outcome>)
      requires Holds(w, found, Between)
      modifies this
      ensures old(log) <= log && outcome == Fate(w, Core(found)) && Ended(w, outcome, Arrives(w, Core(found)))
    {
      var s := found;
      while s.stage < LAST_STAGE
        invariant Holds(w, s, Between) && old(log) <= log
        invariant SameFate(w, Core(found), Core(s))
        decreases LAST_STAGE - s.stage
      {
        var next;
        next, outcome := RunStage(w, s);
        if next.None? {
          return;
        }
        s := next.value;
      }
      outcome := Finish(w, Ok, 0);
    }
  }

  /** Gate and session check approve of the state a stage left. */
  predicate Approved(w: World, s: St, k: int) {
    !w.gateRaises(k) && w.gate(k) && (NeedsBase(k) ==> HasBase(s, k)) && SessionsProve(s.sessions, s.stage)
  }

  function VerdictOn(w: World, s: St, k: int): Verdict {
    if w.gateRaises(k) then Raised
    else if !Approved(w, s, k) then Refused
    else if !w.stageSaved(k) || (k == PR_STAGE && w.ciGateRaises) then Raised
    else Fine
  }

  lemma CheckMayRun(norm: Norm, w: World, m: Machine, s: St, round: nat)
    requires m.mem == Some(s) && (m.pc == Fixed(round) || (m.pc == Started(PR_STAGE) && round == 0))
    requires round > 0 ==> w.fixed(round - 1)
    ensures Enabled(m, CiCheck(w.ci(round))) && Truthful(w, m, CiCheck(w.ci(round)))
    ensures Next(norm, m, CiCheck(w.ci(round))) == m.(pc := if w.ci(round) == 0 then Green else Red(round, w.ci(round)))
  {
  }

  lemma RoundStarts(norm: Norm, m: Machine, s: St, round: nat, code: int, now: int)
    requires m.mem == Some(s) && m.pc == Red(round, code) && CanFix(s, round, code, now) && Resumable(s)
    ensures Enabled(m, FixRound(now)) && Next(norm, m, FixRound(now)) == m.(pc := Fixed(round + 1))
  {
  }

  lemma AdvanceWrites(norm: Norm, m: Machine, s: St, k: int)
    requires m.mem == Some(s) && m.pc == Passed(k) && SessionsProve(s.sessions, s.stage)
    ensures Enabled(m, Advance(k)) && Next(norm, m, Advance(k)) == Machine(Payload(s.(stage := k)), Some(s.(stage := k)), Between)
  {
  }

  /** Recording the base changes nothing for the agent. */
  lemma DeliversOnBase(w: World, s: St, k: int)
    requires k != PR_STAGE
    ensures AgentDelivers(w, WithBase(w, s, k), k) == AgentDelivers(w, s, k)
    ensures AgentDelivers(w, s, k) ==> WithSession(WithBase(w, s, k), k, w.session(k).value) == Worked(w, s, k)
    ensures !NeedsBase(k) ==> WithBase(w, s, k) == s
    ensures WithBase(w, s, k).stage == s.stage
  {
  }

  predicate SameFate(w: World, s: St, t: St) {
    Fate(w, s) == Fate(w, t) && Arrives(w, s) == Arrives(w, t)
  }

  lemma {:induction false} CiCoreFrom(w: World, s: St, r: nat)
    ensures GreenFrom(w, Core(s), r) == GreenFrom(w, s, r) && LateFrom(w, Core(s), r) == LateFrom(w, s, r)
    decreases MAX_CI_FIX_ROUNDS - r
  {
    if r < MAX_CI_FIX_ROUNDS {
      CiCoreFrom(w, s, r + 1);
    }
  }

  lemma CiCore(w: World, s: St)
    ensures CiGreen(w, Core(s)) == CiGreen(w, s) && CiLate(w, Core(s)) == CiLate(w, s)
  {
    CiCoreFrom(w, s, 0);
  }

  lemma CoreWorked(w: World, s: St, k: int)
    ensures Worked(w, Core(s), k) == Core(Worked(w, s, k))
  {
    assert WithBase(w, Core(s), k) == Core(WithBase(w, s, k));
  }

  lemma CoreWorks(w: World, s: St, k: int)
    ensures WorkSucceeds(w, Core(s), k) == WorkSucceeds(w, s, k) && StopOf(w, Core(s), k) == StopOf(w, s, k)
  {
    CiCore(w, s);
  }

  lemma CorePasses(w: World, s: St, k: int)
    ensures Passes(w, Core(s), k) == Passes(w, s, k)
  {
    CoreWorks(w, s, k);
    CoreWorked(w, s, k);
  }

  lemma CoreGoes(w: World, s: St, k: int)
    ensures Goes(w, Core(s), k) == Goes(w, s, k) && StageFate(w, Core(s), k) == StageFate(w, s, k)
    ensures StageArrives(w, Core(s), k) == StageArrives(w, s, k)
  {
    CoreWorks(w, s, k);
    CorePasses(w, s, k);
  }

  /** The document a state was read from decides nothing. */
  lemma FateOfOneStage(w: World, s: St)
    requires s.stage < LAST_STAGE && !Past(s, w.startNow(NextStage(s)))
    ensures var k, next := NextStage(s), Core(Worked(w, s, NextStage(s)).(stage := NextStage(s)));
            if Goes(w, s, k) then SameFate(w, Core(s), next)
            else Fate(w, Core(s)) == StageFate(w, s, k) && Arrives(w, Core(s)) == StageArrives(w, s, k)
  {
    CoreGoes(w, s, NextStage(s));
    CoreWorked(w, s, NextStage(s));
    assert NextStage(Core(s)) == NextStage(s);
  }

  /** The verdict on the state a stage left is the verdict on the stage; a late fix loop leaves none to judge. */
  lemma JudgedAlike(w: World, s: St, k: int, worked: St)
    requires Core(worked) == Core(Worked(w, s, k)) && WorkSucceeds(w, s, k)
    ensures Passes(w, s, k) <==> Approved(w, worked, k)
    ensures Goes(w, s, k) <==> VerdictOn(w, worked, k).Fine?
    ensures Escapes(w, s, k) <==> VerdictOn(w, worked, k).Raised?
    ensures Core(worked.(stage := k)) == Core(Worked(w, s, k).(stage := k)) && worked.stage == s.stage
    ensures StopOf(w, s, k) == Failed
  {
    assert worked.sessions == Worked(w, s, k).sessions && worked.stage == s.stage;
    assert worked.bases == Worked(w, s, k).bases;
    GreenIsNotLate(w, s);
  }

  /** How the loop comes out from round `r` on. */
  predicate ComesOut(w: World, s: St, r: nat, green: bool, late: bool) {
    GreenFrom(w, s, r) == green && LateFrom(w, s, r) == late
  }

  /** What the answers of round `r` settle. */
  lemma DecidedIn(w: World, s: St, r: nat, green: bool, late: bool)
    requires r <= MAX_CI_FIX_ROUNDS && ComesOut(w, s, r, green, late)
    ensures w.ci(r) == 0 ==> green
    ensures w.ci(r) != 0 && (w.ci(r) == 127 || r == MAX_CI_FIX_ROUNDS) ==> !green && !late
    ensures w.ci(r) != 0 && w.ci(r) != 127 && r < MAX_CI_FIX_ROUNDS && Past(s, w.fixNow(r)) ==> !green && late
    ensures w.ci(r) != 0 && w.ci(r) != 127 && r < MAX_CI_FIX_ROUNDS && !Past(s, w.fixNow(r)) ==>
              if Fixes(w, s, r) then ComesOut(w, s, r + 1, green, late) else !green && !late
  {
  }

  lemma {:induction false} GreenIsNotLateFrom(w: World, s: St, r: nat)
    ensures !(GreenFrom(w, s, r) && LateFrom(w, s, r))
    decreases MAX_CI_FIX_ROUNDS - r
  {
    if r < MAX_CI_FIX_ROUNDS {
      GreenIsNotLateFrom(w, s, r + 1);
    }
  }

  lemma GreenIsNotLate(w: World, s: St)
    ensures !(CiGreen(w, s) && CiLate(w, s))
  {
    GreenIsNotLateFrom(w, s, 0);
  }
}
