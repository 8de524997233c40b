/** Launches there are: one that goes through all stages, and ones whose commit of a stage fails. */
module PipelineExamples {
  import opened Common
  import opened Json
  import opened PipelineAnswers
  import opened PipelineMachine
  import opened PipelineRun
  import opened PipelineState
  import opened StageSessions

  /** A session id per stage, and stage 4's for stage 7. */
  function IdOf(k: int): string {
    "ses_0000000000000000000" + Key(if k == ADDRESS_COMMENTS_STAGE then IMPLEMENT_STAGE else k)
  }

  /** Everything works, but for the commits of the stages that `saved` denies. */
  function FineWorld(saved: int -> bool): World {
    World(true, k => 0, k => true, k => Some("c"), true, k => true, k => Some(IdOf(k)), k => true, true,
          r => 0, r => 0, r => true, true, [], revision => Some(map[]), true, true, true, Some(1),
          k => true, k => false, false, k => true, k => true, true, saved, k => true, true)
  }

  function Norms(text: string): string {
    if text == "" then "." else text
  }

  const DEADLINE := 1000

  function FreshDoc(): StateDoc {
    Prepared("run", "worktree", "branch", "workspace", DEADLINE, "repo", "issue", "spec", "report")
  }

  // -- the ids are genuine -------------------------------------------------------------------------

  lemma {:induction false} PartHasItsChars(text: string, part: string, c: char)
    requires Contains(text, part) && c in part
    ensures c in text
  {
    if part <= text {
    } else {
      PartHasItsChars(text[1..], part, c);
    }
  }

  predicate Plainest(s: string) {
    forall i :: 0 <= i < |s| ==> s[i] == 's' || s[i] == 'e' || s[i] == '_' || '0' <= s[i] <= '9'
  }

  lemma {:induction false} LowerIsSame(s: string)
    requires Plainest(s)
    ensures Lower(s) == s
  {
    if s != "" {
      LowerIsSame(s[1..]);
    }
  }

  /** Each placeholder word has a letter that is not in such an id. */
  lemma NotFabricated(id: string)
    requires Plainest(id)
    ensures !Fabricated(id)
  {
    LowerIsSame(id);
    forall i | 0 <= i < |FABRICATED| ensures !Contains(id, FABRICATED[i]) {
      var c := "fpdttxam"[i];
      assert c == FABRICATED[i][if i == 3 || i == 5 || i == 6 then 1 else 0];
      if Contains(id, FABRICATED[i]) {
        PartHasItsChars(id, FABRICATED[i], c);
      }
    }
  }

  lemma IdIsGenuine(k: int)
    requires 1 <= k <= LAST_STAGE
    ensures Genuine(IdOf(k)) && |IdOf(k)| == 24
  {
    NotFabricated(IdOf(k));
  }

  lemma OwnIds(i: int, j: int)
    requires 1 <= i <= LAST_STAGE && 1 <= j <= LAST_STAGE && i != j && IdOf(i) == IdOf(j)
    ensures {Key(i), Key(j)} == {Key(IMPLEMENT_STAGE), Key(ADDRESS_COMMENTS_STAGE)}
  {
    assert IdOf(i)[23] == IdOf(j)[23];
  }

  // -- stage after stage ----------------------------------------------------------------------------

  /** The state that stage `k` finds: what stages before it left. */
  ghost predicate Along(s: St, k: int) {
    && s.stage == k - 1 && s.deadline == Some(DEADLINE) && SessionsAlong(s.sessions, k)
    && (forall a :: a in s.bases ==> s.bases[a] != "")
    && (TEST_AUTHOR_STAGE < k ==> HasBase(s, TEST_AUTHOR_STAGE)) && (IMPLEMENT_STAGE < k ==> HasBase(s, IMPLEMENT_STAGE))
  }

  ghost predicate SessionsAlong(sessions: map<string, string>, k: int) {
    && (forall a :: a in sessions ==> Known(sessions, a, k))
    && (forall j :: 1 <= j < k && j != PR_STAGE ==> Get(sessions, Key(j)) == Some(IdOf(j)))
  }

  /** Some stage before `k` left the session under `a`. */
  ghost predicate Known(sessions: map<string, string>, a: string, k: int)
    requires a in sessions
  {
    exists j :: Left(sessions, a, j, k)
  }

  predicate Left(sessions: map<string, string>, a: string, j: int, k: int)
    requires a in sessions
  {
    1 <= j < k && j != PR_STAGE && a == Key(j) && sessions[a] == IdOf(j)
  }

  lemma AlongProves(s: St, k: int, stage: int)
    requires 1 < k <= LAST_STAGE + 1 && 0 <= stage < k && Along(s, k)
    ensures SessionsProve(s.sessions, stage)
  {
    assert Get(s.sessions, Key(1)).Some?;
    forall j | 1 <= j <= Reached(stage) && Independent(j) ensures Key(j) in s.sessions {
      assert Get(s.sessions, Key(j)).Some?;
    }
    forall a | a in s.sessions ensures Genuine(s.sessions[a]) {
      assert Known(s.sessions, a, k);
      var j :| Left(s.sessions, a, j, k);
      IdIsGenuine(j);
    }
    forall a, b | a in s.sessions && b in s.sessions && a != b && s.sessions[a] == s.sessions[b]
      ensures {a, b} == {Key(IMPLEMENT_STAGE), Key(ADDRESS_COMMENTS_STAGE)}
    {
      assert Known(s.sessions, a, k) && Known(s.sessions, b, k);
      var i :| Left(s.sessions, a, i, k);
      var j :| Left(s.sessions, b, j, k);
      OwnIds(i, j);
    }
  }

  lemma WorksAlong(saved: int -> bool, s: St, k: int)
    requires 1 <= k <= LAST_STAGE && Along(s, k)
    ensures !Past(s, FineWorld(saved).startNow(k)) && WorkSucceeds(FineWorld(saved), s, k)
  {
    IdIsGenuine(k);
    if k == PR_STAGE {
      assert GreenFrom(FineWorld(saved), s, 0);
    } else if k == ADDRESS_COMMENTS_STAGE {
      IdIsGenuine(IMPLEMENT_STAGE);
      assert Get(s.sessions, Key(IMPLEMENT_STAGE)).Some?;
    }
  }

  lemma KeysDiffer(i: int, j: int)
    requires 1 <= i <= LAST_STAGE && 1 <= j <= LAST_STAGE && i != j
    ensures Key(i) != Key(j)
  {
  }

  lemma SessionsStep(sessions: map<string, string>, k: int)
    requires 1 <= k <= LAST_STAGE && SessionsAlong(sessions, k)
    ensures SessionsAlong(if k == PR_STAGE then sessions else sessions[Key(k) := IdOf(k)], k + 1)
  {
    var after := if k == PR_STAGE then sessions else sessions[Key(k) := IdOf(k)];
    forall a | a in after ensures Known(after, a, k + 1) {
      if k != PR_STAGE && a == Key(k) {
        assert Left(after, a, k, k + 1);
      } else {
        assert Known(sessions, a, k);
        var j :| Left(sessions, a, j, k);
        assert Left(after, a, j, k + 1);
      }
    }
    forall j | 1 <= j < k + 1 && j != PR_STAGE ensures Get(after, Key(j)) == Some(IdOf(j)) {
      if j < k {
        KeysDiffer(j, k);
        assert Get(sessions, Key(j)) == Some(IdOf(j));
      }
    }
  }

  lemma StepAlong(saved: int -> bool, s: St, k: int)
    requires 1 <= k <= LAST_STAGE && Along(s, k)
    ensures Along(Worked(FineWorld(saved), s, k).(stage := k), k + 1)
  {
    SessionsStep(s.sessions, k);
    BasesStep(saved, s, k);
  }

  lemma BasesStep(saved: int -> bool, s: St, k: int)
    requires 1 <= k <= LAST_STAGE && Along(s, k)
    ensures var after := Worked(FineWorld(saved), s, k).(stage := k);
            && (forall a :: a in after.bases ==> after.bases[a] != "")
            && (TEST_AUTHOR_STAGE < k + 1 ==> HasBase(after, TEST_AUTHOR_STAGE))
            && (IMPLEMENT_STAGE < k + 1 ==> HasBase(after, IMPLEMENT_STAGE))
            && after.sessions == if k == PR_STAGE then s.sessions else s.sessions[Key(k) := IdOf(k)]
  {
    KeysDiffer(TEST_AUTHOR_STAGE, IMPLEMENT_STAGE);
    WorkedIs(saved, s, k);
  }

  /** What a stage adds here. */
  lemma WorkedIs(saved: int -> bool, s: St, k: int)
    requires 1 <= k <= LAST_STAGE
    ensures var worked := Worked(FineWorld(saved), s, k);
            && worked.sessions == (if k == PR_STAGE then s.sessions else s.sessions[Key(k) := IdOf(k)])
            && worked.bases == (if NeedsBase(k) && Key(k) !in s.bases then s.bases[Key(k) := "c"] else s.bases)
  {
  }

  lemma PassesAlong(saved: int -> bool, s: St, k: int)
    requires 1 <= k <= LAST_STAGE && Along(s, k)
    ensures Passes(FineWorld(saved), s, k)
  {
    var w := FineWorld(saved);
    WorksAlong(saved, s, k);
    StepAlong(saved, s, k);
    var after := Worked(w, s, k).(stage := k);
    AlongProves(after, k + 1, s.stage);
    assert after.sessions == Worked(w, s, k).sessions && after.bases == Worked(w, s, k).bases;
  }

  ghost predicate FindsAlong(w: World, s: St, k: int) {
    Along(Found(w, s, k), k)
  }

  lemma FindsNext(saved: int -> bool, s: St, k: int)
    requires 1 <= k <= LAST_STAGE && s.stage == 0 && FindsAlong(FineWorld(saved), s, k)
    ensures FindsAlong(FineWorld(saved), s, k + 1)
  {
    StepAlong(saved, Found(FineWorld(saved), s, k), k);
  }

  lemma {:induction false} FoundAlong(saved: int -> bool, s: St, k: int)
    requires 1 <= k <= LAST_STAGE + 1 && Along(s, 1)
    ensures FindsAlong(FineWorld(saved), s, k)
  {
    if k > 1 {
      FoundAlong(saved, s, k - 1);
      FindsNext(saved, s, k - 1);
    }
  }

  /** A stage whose commit is saved goes; one whose commit is not ends the launch with an error that escapes. */
  lemma AtStage(saved: int -> bool, s: St, k: int)
    requires 1 <= k <= LAST_STAGE && Along(s, 1)
    ensures var w, found := FineWorld(saved), Found(FineWorld(saved), s, k);
            && !Past(found, w.startNow(k)) && (if saved(k) then Goes(w, found, k) else Escapes(w, found, k) && !Commits(w, found, k))
  {
    FoundAlong(saved, s, k);
    WorksAlong(saved, Found(FineWorld(saved), s, k), k);
    PassesAlong(saved, Found(FineWorld(saved), s, k), k);
  }

  lemma FreshIsAlong() returns (s: St)
    ensures Normal(Norms) && Fresh(Norms, FreshDoc()) && Read(Norms, FreshDoc()).Some?
    ensures s == Core(Read(Norms, FreshDoc()).value) && Along(s, 1)
  {
    ReadPrepared(Norms, "run", "worktree", "branch", "workspace", DEADLINE, "repo", "issue", "spec", "report");
    s := Core(Read(Norms, FreshDoc()).value);
  }

  lemma GoesThrough(saved: int -> bool, s: St)
    requires Along(s, 1) && forall k :: 1 <= k <= LAST_STAGE ==> saved(k)
    ensures AllGo(FineWorld(saved), s) && Fate(FineWorld(saved), s) == Some(Ok)
  {
    var w := FineWorld(saved);
    forall k | 1 <= k <= LAST_STAGE ensures InTimeAndGoes(w, s, k) {
      AtStage(saved, s, k);
    }
    OkMeans(w, s);
  }

  lemma FailsAt(saved: int -> bool, s: St, stage: int)
    requires Along(s, 1) && 1 <= stage <= LAST_STAGE && (forall k :: 1 <= k < stage ==> saved(k)) && !saved(stage)
    ensures EscapesAt(FineWorld(saved), s, stage) && !Commits(FineWorld(saved), Found(FineWorld(saved), s, stage), stage)
  {
    var w := FineWorld(saved);
    forall k | 1 <= k < stage ensures InTimeAndGoes(w, s, k) {
      AtStage(saved, s, k);
    }
    AtStage(saved, s, stage);
  }

  lemma EndsThere(saved: int -> bool, s: St, stage: int)
    requires Along(s, 1) && EscapesAt(FineWorld(saved), s, stage)
    requires !Commits(FineWorld(saved), Found(FineWorld(saved), s, stage), stage)
    ensures Fate(FineWorld(saved), s) == None && Arrives(FineWorld(saved), s) == stage - 1
  {
    RaisesMeans(FineWorld(saved), s);
    EscapeArrives(FineWorld(saved), s, stage);
    FoundAlong(saved, s, stage);
  }

  /** A prepared run that goes through all its stages. */
  lemma ALaunchThatGoes() returns (w: World, s: St)
    ensures Normal(Norms) && Fresh(Norms, FreshDoc()) && Read(Norms, FreshDoc()).Some?
    ensures s == Core(Read(Norms, FreshDoc()).value) && AllGo(w, s) && Fate(w, s) == Some(Ok)
  {
    s := FreshIsAlong();
    var saved := k => true;
    w := FineWorld(saved);
    GoesThrough(saved, s);
  }

  /** The same launch with the commit of any one stage failing: the error escapes, and there is no report. */
  lemma ACommitThatFails(stage: int) returns (w: World, s: St)
    requires 1 <= stage <= LAST_STAGE
    ensures Normal(Norms) && Fresh(Norms, FreshDoc()) && Read(Norms, FreshDoc()).Some?
    ensures s == Core(Read(Norms, FreshDoc()).value) && w.reportSaved && EscapesAt(w, s, stage) && Fate(w, s) == None
    ensures Arrives(w, s) == stage - 1
  {
    s := FreshIsAlong();
    var saved := k => k != stage;
    w := FineWorld(saved);
    FailsAt(saved, s, stage);
    EndsThere(saved, s, stage);
  }

  /** It runs: a fresh run goes from stage 0 to stage 7 in one launch. */
  method OneLaunch() returns (pipeline: Pipeline, outcome: Option<Outcome>)
    ensures fresh(pipeline) && pipeline.Valid() && outcome == Some(Ok) && DiskStage(pipeline.norm, pipeline.doc, LAST_STAGE)
  {
    var saved := k => true;
    ghost var s := FreshIsAlong();
    pipeline := new Pipeline(Norms, FreshDoc());
    GoesThrough(saved, s);
    AllGoArrives(FineWorld(saved), s);
    outcome := pipeline.Run(FineWorld(saved));
  }
}
