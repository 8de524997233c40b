/** `state.json`, the only memory between two launches of a pipeline run (`pipeline_run._State`). */
module PipelineState {
  import opened Common
  import opened Json

  /** `str(Path(text))`. */
  type Norm = string -> string

  ghost predicate Normal(norm: Norm) {
    forall text {:trigger norm(text)} :: norm(norm(text)) == norm(text) && norm(text) != ""
  }

  /** The keys of the document: those the programs name, and any other. */
  datatype DocKey =
    | RunId | CurrentStage | PrNumber | SharedWorktree | Branch | SharedWorkspace | DeadlineEpoch | FeatureSource
    | ArtifactPaths | StageSessions | StageBases
    | RepoParent | ResumeCount | ResumedAt
    | Other(name: string)

  type StateDoc = map<DocKey, Json>

  function Item(d: StateDoc, key: DocKey): Json {
    if key in d then d[key] else JNull
  }

  /** The fields the loop reads, and the document they were read from. */
  datatype St = St(runId: string, worktree: string, branch: string, spec: string, source: Option<string>,
                   deadline: Option<int>, workspace: Option<string>, stage: int, pr: Option<int>,
                   sessions: map<string, string>, bases: map<string, string>, raw: StateDoc)

  /** A non-empty string, or nothing. */
  function OptText(d: StateDoc, key: DocKey): Option<string> {
    if IsText(Item(d, key)) then Some(Item(d, key).s) else None
  }

  /** An integer that is no boolean, or nothing. */
  function OptInt(d: StateDoc, key: DocKey): Option<int> {
    if Item(d, key).JInt? then Some(Item(d, key).n) else None
  }

  /** The string entries of an object; any other value reads as empty. */
  function Strings(j: Json): map<string, string> {
    if j.JObj? then map key | key in j.fields && j.fields[key].JStr? :: j.fields[key].s else map[]
  }

  function Object(strings: map<string, string>): Json {
    JObj(map key | key in strings :: JStr(strings[key]))
  }

  function Artifacts(d: StateDoc): map<string, Json> {
    if Item(d, ArtifactPaths).JObj? then Item(d, ArtifactPaths).fields else map[]
  }

  /** `_State.read`; None is the ValueError for a missing spec, worktree or branch. */
  function Read(norm: Norm, d: StateDoc): Option<St> {
    if !Field(Artifacts(d), "spec").JStr? || OptText(d, SharedWorktree).None? || OptText(d, Branch).None? then None
    else
      Some(St(
             if OptText(d, RunId).Some? then OptText(d, RunId).value else "",
             norm(OptText(d, SharedWorktree).value),
             OptText(d, Branch).value,
             norm(Field(Artifacts(d), "spec").s),
             OptText(d, FeatureSource),
             OptInt(d, DeadlineEpoch),
             OptText(d, SharedWorkspace),
             if OptInt(d, CurrentStage).Some? then OptInt(d, CurrentStage).value else 0,
             OptInt(d, PrNumber),
             Strings(Item(d, StageSessions)),
             Strings(Item(d, StageBases)),
             d))
  }

  function FromOptInt(n: Option<int>): Json {
    if n.Some? then JInt(n.value) else JNull
  }

  const OWNED: set<DocKey> := {
    RunId, CurrentStage, PrNumber, SharedWorktree, Branch, SharedWorkspace, DeadlineEpoch, FeatureSource,
    ArtifactPaths, StageSessions, StageBases}

  /** The value the loop writes under a key it owns. */
  function Value(s: St, key: DocKey): Json {
    match key
    case RunId => JStr(s.runId)
    case CurrentStage => JInt(s.stage)
    case PrNumber => FromOptInt(s.pr)
    case SharedWorktree => JStr(s.worktree)
    case Branch => JStr(s.branch)
    case SharedWorkspace => FromOptString(s.workspace)
    case DeadlineEpoch => FromOptInt(s.deadline)
    case FeatureSource => FromOptString(s.source)
    case ArtifactPaths => JObj(Artifacts(s.raw)["spec" := JStr(s.spec)])
    case StageSessions => Object(s.sessions)
    case StageBases => Object(s.bases)
    case _ => JNull
  }

  /** `_State.payload`: the document as read, with the loop's fields on top. */
  function Payload(s: St): StateDoc {
    map key | key in s.raw.Keys + OWNED :: if key in OWNED then Value(s, key) else s.raw[key]
  }

  /** What `Read` returns: paths normalised, no optional text empty. */
  predicate WellRead(norm: Norm, s: St) {
    && s.worktree != "" && norm(s.worktree) == s.worktree && norm(s.spec) == s.spec && s.branch != ""
    && s.source != Some("") && s.workspace != Some("")
  }

  lemma ReadIsWellRead(norm: Norm, d: StateDoc)
    requires Normal(norm) && Read(norm, d).Some?
    ensures WellRead(norm, Read(norm, d).value) && Read(norm, d).value.raw == d
  {
  }

  /** Each field is read under its own key: a text that is empty or missing, and a number that is none, are none. */
  lemma ReadMeans(norm: Norm, d: StateDoc)
    requires Read(norm, d).Some?
    ensures var s := Read(norm, d).value;
            && norm(Item(d, SharedWorktree).s) == s.worktree && Item(d, Branch) == JStr(s.branch)
            && norm(Field(Artifacts(d), "spec").s) == s.spec
            && s.runId == (if Item(d, RunId).JStr? then Item(d, RunId).s else "")
            && s.stage == (if Item(d, CurrentStage).JInt? then Item(d, CurrentStage).n else 0)
            && s.pr == (if Item(d, PrNumber).JInt? then Some(Item(d, PrNumber).n) else None)
            && s.deadline == (if Item(d, DeadlineEpoch).JInt? then Some(Item(d, DeadlineEpoch).n) else None)
    ensures var s := Read(norm, d).value;
            && s.source == (if IsText(Item(d, FeatureSource)) then Some(Item(d, FeatureSource).s) else None)
            && s.workspace == (if IsText(Item(d, SharedWorkspace)) then Some(Item(d, SharedWorkspace).s) else None)
            && (forall k :: k in s.sessions <==> Item(d, StageSessions).JObj? && Field(Item(d, StageSessions).fields, k).JStr?)
            && (forall k :: k in s.bases <==> Item(d, StageBases).JObj? && Field(Item(d, StageBases).fields, k).JStr?)
  {
  }

  /** A document reads exactly when it names its worktree, its branch and its spec. */
  lemma WhenItReads(norm: Norm, d: StateDoc)
    ensures Read(norm, d).Some? <==>
              IsText(Item(d, SharedWorktree)) && IsText(Item(d, Branch)) && Field(Artifacts(d), "spec").JStr?
  {
  }

  lemma PayloadItem(s: St, key: DocKey)
    ensures key in OWNED ==> Item(Payload(s), key) == Value(s, key)
    ensures key !in OWNED ==> Get(Payload(s), key) == Get(s.raw, key)
  {
  }

  lemma StringsOfObject(strings: map<string, string>)
    ensures Strings(Object(strings)) == strings
  {
  }

  lemma PayloadArtifacts(s: St)
    ensures Artifacts(Payload(s)) == Artifacts(s.raw)["spec" := JStr(s.spec)]
  {
    PayloadItem(s, ArtifactPaths);
  }

  lemma PayloadReads(s: St)
    requires s.source != Some("") && s.workspace != Some("")
    ensures var d := Payload(s);
            && OptInt(d, CurrentStage) == Some(s.stage) && OptInt(d, PrNumber) == s.pr && OptInt(d, DeadlineEpoch) == s.deadline
            && OptText(d, FeatureSource) == s.source && OptText(d, SharedWorkspace) == s.workspace
            && OptText(d, RunId) == (if s.runId != "" then Some(s.runId) else None)
            && Strings(Item(d, StageSessions)) == s.sessions && Strings(Item(d, StageBases)) == s.bases
  {
    forall key | key in OWNED ensures Item(Payload(s), key) == Value(s, key) {
      PayloadItem(s, key);
    }
    StringsOfObject(s.sessions);
    StringsOfObject(s.bases);
  }

  /** Reading a written payload back gives the same state. */
  lemma ReadPayload(norm: Norm, s: St)
    requires WellRead(norm, s)
    ensures Read(norm, Payload(s)) == Some(s.(raw := Payload(s)))
  {
    PayloadItem(s, SharedWorktree);
    PayloadItem(s, Branch);
    PayloadArtifacts(s);
    PayloadReads(s);
  }

  /** Writing what was read changes no key the loop does not own, and no artifact but the spec. */
  lemma PayloadKeepsTheRest(s: St, key: DocKey, artifact: string)
    ensures key !in OWNED ==> Get(Payload(s), key) == Get(s.raw, key)
    ensures artifact != "spec" ==> Get(Artifacts(Payload(s)), artifact) == Get(Artifacts(s.raw), artifact)
  {
    PayloadItem(s, key);
    PayloadItem(s, ArtifactPaths);
  }

  /** A second write of the same state changes nothing. */
  lemma PayloadIsStable(s: St)
    ensures Payload(s.(raw := Payload(s))) == Payload(s)
  {
    var again := s.(raw := Payload(s));
    PayloadItem(s, ArtifactPaths);
    assert Artifacts(again.raw) == Artifacts(s.raw)["spec" := JStr(s.spec)];
    assert Artifacts(again.raw)["spec" := JStr(s.spec)] == Artifacts(s.raw)["spec" := JStr(s.spec)];
  }

  /** The document `pipeline-prepare` writes. */
  function Prepared(runId: string, worktree: string, branch: string, workspace: string, deadline: int, repoParent: string,
                    source: string, spec: string, report: string): StateDoc {
    map[
      RunId := JStr(runId),
      CurrentStage := JInt(0),
      PrNumber := JNull,
      SharedWorktree := JStr(worktree),
      Branch := JStr(branch),
      SharedWorkspace := JStr(workspace),
      DeadlineEpoch := JInt(deadline),
      RepoParent := JStr(repoParent),
      ResumeCount := JInt(0),
      FeatureSource := JStr(source),
      ArtifactPaths := JObj(map["spec" := JStr(spec), "report" := JStr(report)]),
      StageSessions := JObj(map[])]
  }

  /** The watchdog's rewrite before a resume: its three keys, everything else as read. */
  function Resumed(d: StateDoc, deadline: int, count: int, at: string): StateDoc {
    d[DeadlineEpoch := JInt(deadline)][ResumeCount := JInt(count)][ResumedAt := JStr(at)]
  }

  lemma ReadResumed(norm: Norm, d: StateDoc, deadline: int, count: int, at: string)
    ensures var r := Resumed(d, deadline, count, at);
            && Read(norm, r).Some? == Read(norm, d).Some?
            && (Read(norm, d).Some? ==> Read(norm, r).value == Read(norm, d).value.(deadline := Some(deadline), raw := r))
  {
    var r := Resumed(d, deadline, count, at);
    assert forall key :: key !in {DeadlineEpoch, ResumeCount, ResumedAt} ==> Item(r, key) == Item(d, key);
  }

  /** Where a prepared run works: its worktree, its branch and its spec are there. */
  lemma PreparedPlace(runId: string, worktree: string, branch: string, workspace: string, deadline: int, repoParent: string,
                      source: string, spec: string, report: string)
    requires worktree != "" && branch != ""
    ensures Placed(Prepared(runId, worktree, branch, workspace, deadline, repoParent, source, spec, report))
  {
  }

  /** How far it is: nowhere. */
  lemma PreparedProgress(runId: string, worktree: string, branch: string, workspace: string, deadline: int, repoParent: string,
                         source: string, spec: string, report: string)
    ensures AtStart(Prepared(runId, worktree, branch, workspace, deadline, repoParent, source, spec, report), deadline)
  {
  }

  predicate Placed(d: StateDoc) {
    OptText(d, SharedWorktree).Some? && OptText(d, Branch).Some? && Field(Artifacts(d), "spec").JStr?
  }

  predicate AtStart(d: StateDoc, deadline: int) {
    && Item(d, CurrentStage) == JInt(0) && Item(d, PrNumber) == JNull && Item(d, DeadlineEpoch) == JInt(deadline)
    && Item(d, StageSessions) == JObj(map[]) && Item(d, StageBases) == JNull
  }

  lemma ReadAtStart(norm: Norm, d: StateDoc, deadline: int)
    requires Placed(d) && AtStart(d, deadline)
    ensures var s := Read(norm, d);
            && s.Some? && s.value.stage == 0 && s.value.pr == None && s.value.sessions == map[] && s.value.bases == map[]
            && s.value.deadline == Some(deadline)
  {
  }

  lemma ReadPrepared(norm: Norm, runId: string, worktree: string, branch: string, workspace: string, deadline: int,
                     repoParent: string, source: string, spec: string, report: string)
    requires worktree != "" && branch != ""
    ensures var s := Read(norm, Prepared(runId, worktree, branch, workspace, deadline, repoParent, source, spec, report));
            && s.Some? && s.value.stage == 0 && s.value.pr == None && s.value.sessions == map[] && s.value.bases == map[]
            && s.value.deadline == Some(deadline)
  {
    var d := Prepared(runId, worktree, branch, workspace, deadline, repoParent, source, spec, report);
    PreparedPlace(runId, worktree, branch, workspace, deadline, repoParent, source, spec, report);
    PreparedProgress(runId, worktree, branch, workspace, deadline, repoParent, source, spec, report);
    ReadAtStart(norm, d, deadline);
  }
}
