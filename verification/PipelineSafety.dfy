/** What no run of the pipeline ever does, over all its launches: push unchecked work, overspend fix rounds, commit a
    stage on unproven sessions, or lose what others keep in the document. */
module PipelineSafety {
  import opened Common
  import opened Json
  import opened PipelineMachine
  import opened PipelineState
  import opened StageSessions

  // -- the push ---------------------------------------------------------------------------------

  /** What must have happened before a push, in order. */
  function Wanted(k: int): Event {
    if k == 1 then CiCheck(0) else if k == 2 then NamedTests(false) else if k <= 4 then IssueDone(true) else Push
  }

  /** No other CI check, fix round or launch. */
  predicate Quiet(e: Event) {
    !e.Launch? && !e.CiCheck? && !e.FixRound?
  }

  predicate QuietFrom(log: seq<Event>, from: nat) {
    forall i :: from <= i < |log| ==> Quiet(log[i])
  }

  /** The first `k` of the wanted happened, in order, and since the first of them all was quiet. */
  ghost predicate Chain(log: seq<Event>, k: int)
    decreases k
  {
    k <= 0 || exists i :: 0 <= i < |log| && log[i] == Wanted(k) && QuietFrom(log, i + 1) && Chain(log[..i], k - 1)
  }

  /** How many of them a process at `pc` can rely on. */
  function Rank(pc: Pc): int {
    match pc
    case Green => 1
    case Kept => 2
    case Flipped => 3
    case Clear => 4
    case Pushed => 5
    case Opened(_) => 5
    case _ => 0
  }

  lemma ChainExtends(log: seq<Event>, n: nat, k: int)
    requires |log| == n + 1 && Chain(log[..n], k) && Quiet(log[n])
    ensures Chain(log, k)
  {
    if k > 0 {
      var i :| 0 <= i < n && log[..n][i] == Wanted(k) && QuietFrom(log[..n], i + 1) && Chain(log[..n][..i], k - 1);
      assert log[..n][..i] == log[..i];
      QuietExtends(log, n, i + 1);
      assert log[i] == Wanted(k);
    }
  }

  lemma QuietExtends(log: seq<Event>, n: nat, from: nat)
    requires |log| == n + 1 && QuietFrom(log[..n], from) && Quiet(log[n])
    ensures QuietFrom(log, from)
  {
    forall j | from <= j < |log| ensures Quiet(log[j]) {
      assert j < n ==> log[..n][j] == log[j];
    }
  }

  lemma ChainGrows(log: seq<Event>, n: nat, k: int)
    requires |log| == n + 1 && Chain(log[..n], k - 1) && log[n] == Wanted(k)
    ensures Chain(log, k)
  {
    assert QuietFrom(log, n + 1);
  }

  /** How an event moves the rank. */
  lemma RankStep(norm: Norm, m: Machine, e: Event)
    requires Enabled(m, e)
    ensures var r := Rank(Next(norm, m, e).pc);
            r <= 0 || (r == Rank(m.pc) + 1 && e == Wanted(r)) || (r == Rank(m.pc) && Quiet(e)) || (r == 1 && e == Wanted(1))
  {
  }

  lemma {:induction false} RankIsEarned(norm: Norm, d0: StateDoc, log: seq<Event>)
    requires After(norm, d0, log).Some?
    ensures Chain(log, Rank(After(norm, d0, log).value.pc))
  {
    if log != [] {
      var n := |log| - 1;
      var m := After(norm, d0, log[..n]).value;
      RankIsEarned(norm, d0, log[..n]);
      RankStep(norm, m, log[n]);
      var r := Rank(Next(norm, m, log[n]).pc);
      if r > 0 {
        if log[n] == Wanted(r) && (r == Rank(m.pc) + 1 || r == 1) {
          ChainGrows(log, n, r);
        } else {
          ChainExtends(log, n, r);
        }
      }
    }
  }

  /** Nothing is pushed unless the last CI check exited 0, then every named test was found kept, then the issue was
      found committed as done (twice), all in the same launch with no fix round in between. */
  lemma PushOnlyCheckedWork(norm: Norm, d0: StateDoc, log: seq<Event>, i: nat)
    requires After(norm, d0, log).Some? && i < |log| && log[i] == Push
    ensures Chain(log[..i + 1], 5)
  {
    PrefixRuns(norm, d0, log, i + 1);
    ChainAtPush(norm, d0, log[..i + 1], i);
  }

  lemma ChainAtPush(norm: Norm, d0: StateDoc, log: seq<Event>, i: nat)
    requires After(norm, d0, log).Some? && |log| == i + 1 && log[i] == Push
    ensures Chain(log, 5)
  {
    PushComesFromClear(norm, d0, log, i);
    RankIsEarned(norm, d0, log[..i]);
    ChainGrows(log, i, 5);
  }

  lemma PushComesFromClear(norm: Norm, d0: StateDoc, log: seq<Event>, i: nat)
    requires After(norm, d0, log).Some? && |log| == i + 1 && log[i] == Push
    ensures After(norm, d0, log[..i]).Some? && After(norm, d0, log[..i]).value.pc.Clear?
  {
  }

  // -- fix rounds ---------------------------------------------------------------------------------

  /** Fix rounds and CI checks of the current launch. */
  function Fixes(log: seq<Event>): nat {
    if log == [] || log[|log| - 1].Launch? then 0
    else Fixes(log[..|log| - 1]) + if log[|log| - 1].FixRound? then 1 else 0
  }

  function Checks(log: seq<Event>): nat {
    if log == [] || log[|log| - 1].Launch? then 0
    else Checks(log[..|log| - 1]) + if log[|log| - 1].CiCheck? then 1 else 0
  }

  /** Before the bookkeeping of this launch. */
  predicate Early(m: Machine) {
    m.mem.None? || m.mem.value.stage < 4 || (m.mem.value.stage == 4 && (m.pc.Between? || m.pc == Started(PR_STAGE)))
  }

  predicate Counted(m: Machine, fixes: nat, checks: nat) {
    && fixes <= MAX_CI_FIX_ROUNDS && checks <= fixes + 1
    && (Early(m) ==> fixes == 0 && checks == 0)
    && (m.pc.Red? ==> fixes == m.pc.round && checks == m.pc.round + 1)
    && (m.pc.Fixed? ==> fixes == m.pc.round && checks == m.pc.round)
    && (m.pc == Started(PR_STAGE) ==> checks == 0)
  }

  /** A process on a stage holds the stage before it. */
  predicate OnNextStage(m: Machine) {
    OnStage(m.pc) ==> m.mem.Some? && AtStage(m.pc, m.mem.value.stage + 1)
  }

  lemma CountedStep(norm: Norm, m: Machine, e: Event, fixes: nat, checks: nat)
    requires Enabled(m, e) && OnNextStage(m) && Counted(m, fixes, checks) && !e.Launch?
    requires e.Reread? ==> Disk(norm, m).Some? && m.mem.Some? && Disk(norm, m).value.stage == m.mem.value.stage
    ensures Counted(Next(norm, m, e), fixes + if e.FixRound? then 1 else 0, checks + if e.CiCheck? then 1 else 0)
  {
  }

  lemma CountedOver(norm: Norm, m: Machine, e: Event, fixes: nat, checks: nat)
    requires Normal(norm) && Sound(norm, m) && Enabled(m, e) && Counted(m, fixes, checks)
    ensures Counted(Next(norm, m, e), if e.Launch? then 0 else fixes + if e.FixRound? then 1 else 0,
                    if e.Launch? then 0 else checks + if e.CiCheck? then 1 else 0)
  {
    if !e.Launch? {
      assert OnNextStage(m);
      CountedStep(norm, m, e, fixes, checks);
    }
  }

  lemma {:induction false} RunsAreCounted(norm: Norm, d0: StateDoc, log: seq<Event>)
    requires Normal(norm) && Fresh(norm, d0) && After(norm, d0, log).Some?
    ensures Counted(After(norm, d0, log).value, Fixes(log), Checks(log))
  {
    if log != [] {
      var n := |log| - 1;
      RunsAreCounted(norm, d0, log[..n]);
      RunsAreSound(norm, d0, log[..n]);
      CountedOver(norm, After(norm, d0, log[..n]).value, log[n], Fixes(log[..n]), Checks(log[..n]));
    }
  }

  /** In one launch at most two fix rounds and one CI check more; and no round starts past the deadline held. */
  lemma FixRoundsAreBounded(norm: Norm, d0: StateDoc, log: seq<Event>, i: nat)
    requires Normal(norm) && Fresh(norm, d0) && After(norm, d0, log).Some? && i < |log|
    ensures Fixes(log) <= 2 && Checks(log) <= Fixes(log) + 1
    ensures log[i].FixRound? ==>
              && After(norm, d0, log[..i]).Some? && After(norm, d0, log[..i]).value.mem.Some?
              && var deadline := After(norm, d0, log[..i]).value.mem.value.deadline;
                 deadline.Some? ==> log[i].now < deadline.value
  {
    RunsAreCounted(norm, d0, log);
    PrefixRuns(norm, d0, log, i + 1);
    assert log[..i + 1][..i] == log[..i] && log[..i + 1][i] == log[i];
  }

  // -- sessions -----------------------------------------------------------------------------------

  lemma SteadyAdvanceProves(norm: Norm, disk: St, s: St, stage: int)
    requires Steady(norm, disk, Some(s), Passed(stage)) && SessionsProve(s.sessions, s.stage)
    ensures SessionsProve(s.sessions, stage)
  {
    assert HasSessions(disk, stage);
  }

  lemma AdvanceProves(norm: Norm, m: Machine, stage: int)
    requires Normal(norm) && Sound(norm, m) && Enabled(m, Advance(stage))
    ensures var disk := Disk(norm, Next(norm, m, Advance(stage)));
            disk.Some? && SessionsProve(disk.value.sessions, stage) && disk.value.stage == stage
  {
    SteadyAdvanceProves(norm, Disk(norm, m).value, m.mem.value, stage);
    ReadPayload(norm, m.mem.value.(stage := stage));
  }

  /** Every document committed with `current_stage == k` passes the session check at `k`. */
  lemma CommittedStagesAreProven(norm: Norm, d0: StateDoc, log: seq<Event>)
    requires Normal(norm) && Fresh(norm, d0) && After(norm, d0, log).Some?
    requires log != [] && log[|log| - 1].Advance?
    ensures SessionsProve(DiskAfter(norm, d0, log).sessions, DiskAfter(norm, d0, log).stage)
    ensures DiskAfter(norm, d0, log).stage == log[|log| - 1].stage
  {
    var n := |log| - 1;
    RunsAreSound(norm, d0, log[..n]);
    AdvanceProves(norm, After(norm, d0, log[..n]).value, log[n].stage);
  }

  /** All ids well formed, and no two alike but stage 4's and stage 7's. */
  ghost predicate IdsFine(sessions: map<string, string>) {
    && (forall a :: a in sessions ==> Genuine(sessions[a]))
    && (forall a, b :: a in sessions && b in sessions && a != b && sessions[a] == sessions[b] ==>
          {a, b} == {Key(IMPLEMENT_STAGE), Key(ADDRESS_COMMENTS_STAGE)})
  }

  /** A stage that records a well-formed id no other stage has (or stage 7 its resumed one) keeps the ids fine; with
      every session on record, as after any stage's work, the check before the commit then passes. */
  lemma GoodIdsPass(sessions: map<string, string>, k: int, id: string, stage: int)
    requires IdsFine(sessions) && Genuine(id)
    requires forall a :: a in sessions && a != Key(k) && sessions[a] == id ==> k == ADDRESS_COMMENTS_STAGE && a == Key(IMPLEMENT_STAGE)
    ensures IdsFine(sessions[Key(k) := id])
    ensures (forall j :: 1 <= j <= Reached(stage) && Independent(j) ==> Key(j) in sessions[Key(k) := id]) ==>
              SessionsProve(sessions[Key(k) := id], stage)
  {
    var more := sessions[Key(k) := id];
    assert Key(k) in more;
    forall a, b | a in more && b in more && a != b && more[a] == more[b]
      ensures {a, b} == {Key(IMPLEMENT_STAGE), Key(ADDRESS_COMMENTS_STAGE)}
    {
      if a == Key(k) {
        assert b in sessions && sessions[b] == id;
      } else if b == Key(k) {
        assert a in sessions && sessions[a] == id;
      }
    }
  }

  lemma SessionsOf(s: St, e: Event)
    ensures Stored(s, e).sessions == if e.RecordSession? then s.sessions[Key(e.stage) := e.id] else s.sessions
  {
  }

  /** The sessions on disk change by a recorded id only. */
  lemma SessionsStep(norm: Norm, m: Machine, e: Event)
    requires Normal(norm) && Sound(norm, m) && Enabled(m, e) && Disk(norm, Next(norm, m, e)).Some?
    ensures Disk(norm, Next(norm, m, e)).value.sessions ==
            if e.RecordSession? then Disk(norm, m).value.sessions[Key(e.stage) := e.id] else Disk(norm, m).value.sessions
  {
    if e.RecordBase? || e.RecordSession? || e.RecordPr? || e.Advance? {
      StoredIsRead(norm, m, e);
      SessionsOf(m.mem.value, e);
    } else if e.Rewrite? {
      ReadResumed(norm, m.doc, e.deadline, e.count, e.at);
    }
  }

  /** Each session was recorded by an event of the log, under its stage. */
  ghost predicate Recordings(sessions: map<string, string>, log: seq<Event>) {
    forall a :: a in sessions ==> exists i :: 0 <= i < |log| && Records(log[i], a, sessions[a])
  }

  predicate Records(e: Event, key: string, id: string) {
    e.RecordSession? && Key(e.stage) == key && e.id == id
  }

  lemma RecordingsGrow(before: map<string, string>, after: map<string, string>, log: seq<Event>, n: nat)
    requires |log| == n + 1 && Recordings(before, log[..n])
    requires after == if log[n].RecordSession? then before[Key(log[n].stage) := log[n].id] else before
    ensures Recordings(after, log)
  {
    forall a | a in after ensures exists i :: 0 <= i < |log| && Records(log[i], a, after[a]) {
      if log[n].RecordSession? && a == Key(log[n].stage) {
        assert Records(log[n], a, after[a]);
      } else {
        var i :| 0 <= i < n && Records(log[..n][i], a, before[a]);
        assert Records(log[i], a, after[a]);
      }
    }
  }

  lemma {:induction false} DiskIsRecorded(norm: Norm, d0: StateDoc, log: seq<Event>)
    requires Normal(norm) && Fresh(norm, d0) && After(norm, d0, log).Some?
    ensures Recordings(DiskAfter(norm, d0, log).sessions, log)
  {
    if log != [] {
      var n := |log| - 1;
      DiskIsRecorded(norm, d0, log[..n]);
      RunsAreSound(norm, d0, log);
      RunsAreSound(norm, d0, log[..n]);
      SessionsStep(norm, After(norm, d0, log[..n]).value, log[n]);
      RecordingsGrow(DiskAfter(norm, d0, log[..n]).sessions, DiskAfter(norm, d0, log).sessions, log, n);
    }
  }

  /** Every recorded id is well formed, and none recorded for two stages but 4's for 7. */
  ghost predicate GoodIds(log: seq<Event>) {
    && (forall i :: 0 <= i < |log| && log[i].RecordSession? ==> Genuine(log[i].id))
    && (forall i, j :: 0 <= i < |log| && 0 <= j < |log| && log[i].RecordSession? && log[j].RecordSession?
                       && log[i].id == log[j].id && log[i].stage != log[j].stage ==>
          {log[i].stage, log[j].stage} == {IMPLEMENT_STAGE, ADDRESS_COMMENTS_STAGE})
  }

  lemma GoodRecordingsAreFine(sessions: map<string, string>, log: seq<Event>)
    requires Recordings(sessions, log) && GoodIds(log)
    ensures IdsFine(sessions)
  {
    forall a | a in sessions ensures Genuine(sessions[a]) {
      var i :| 0 <= i < |log| && Records(log[i], a, sessions[a]);
    }
    forall a, b | a in sessions && b in sessions && a != b && sessions[a] == sessions[b]
      ensures {a, b} == {Key(IMPLEMENT_STAGE), Key(ADDRESS_COMMENTS_STAGE)}
    {
      var i :| 0 <= i < |log| && Records(log[i], a, sessions[a]);
      var j :| 0 <= j < |log| && Records(log[j], b, sessions[b]);
      TheTwoStages(log[i].stage, log[j].stage);
    }
  }

  lemma TheTwoStages(i: int, j: int)
    requires {i, j} == {IMPLEMENT_STAGE, ADDRESS_COMMENTS_STAGE}
    ensures {Key(i), Key(j)} == {Key(IMPLEMENT_STAGE), Key(ADDRESS_COMMENTS_STAGE)}
  {
    assert i in {i, j} && j in {i, j};
    assert IMPLEMENT_STAGE in {i, j} && ADDRESS_COMMENTS_STAGE in {i, j};
  }

  lemma OnlyIdsDecide(norm: Norm, disk: St, s: St, k: int)
    requires Steady(norm, disk, Some(s), Passed(k))
    ensures SessionsProve(s.sessions, s.stage) <==> IdsFine(disk.sessions)
  {
    TableSays(0);
    assert Independent(1) && Key(1) in disk.sessions;
  }

  /** Past its gate, a stage is refused its commit exactly when some id on disk is malformed or wrongly shared: every
      session needed is always there. */
  lemma OnlyBadIdsAreRefused(norm: Norm, d0: StateDoc, log: seq<Event>, k: int)
    requires Normal(norm) && Fresh(norm, d0) && After(norm, d0, log).Some? && After(norm, d0, log).value.pc == Passed(k)
    ensures Enabled(After(norm, d0, log).value, Advance(k)) <==> IdsFine(DiskAfter(norm, d0, log).sessions)
  {
    RunsAreSound(norm, d0, log);
    PassedMayAdvance(norm, After(norm, d0, log).value, k);
  }

  lemma PassedMayAdvance(norm: Norm, m: Machine, k: int)
    requires Sound(norm, m) && m.pc == Passed(k)
    ensures Enabled(m, Advance(k)) == IdsFine(Disk(norm, m).value.sessions)
  {
    MayAdvance(m, k);
    OnlyIdsDecide(norm, Disk(norm, m).value, m.mem.value, k);
  }

  lemma MayAdvance(m: Machine, k: int)
    requires m.pc == Passed(k)
    ensures Enabled(m, Advance(k)) <==> m.mem.Some? && SessionsProve(m.mem.value.sessions, m.mem.value.stage)
  {
  }

  /** The check before the commit sees the ids with their keys sorted, as they came from disk, so it refuses what the
      machine refuses. */
  lemma TheCheckIsOrderBlind(m: Machine, k: int, entries: Entries)
    requires m.pc == Passed(k) && m.mem.Some? && Lists(entries, m.mem.value.sessions) && SortedKeys(entries)
    ensures Accepts(Some(entries), JInt(m.mem.value.stage)) <==> Enabled(m, Advance(k))
  {
    MayAdvance(m, k);
    SortedKeysDecideAlike(entries, m.mem.value.sessions, m.mem.value.stage);
  }

  /** Over any launches and crashes: while the agents' ids are well formed and their own, no stage that passed its gate
      is refused its commit. */
  lemma GoodIdsAreNeverRefused(norm: Norm, d0: StateDoc, log: seq<Event>, i: nat, k: int)
    requires Normal(norm) && Fresh(norm, d0) && After(norm, d0, log).Some? && GoodIds(log) && i <= |log|
    ensures After(norm, d0, log[..i]).Some?
    ensures After(norm, d0, log[..i]).value.pc == Passed(k) ==> Enabled(After(norm, d0, log[..i]).value, Advance(k))
  {
    PrefixRuns(norm, d0, log, i);
    if After(norm, d0, log[..i]).value.pc == Passed(k) {
      DiskIsRecorded(norm, d0, log[..i]);
      assert GoodIds(log[..i]);
      GoodRecordingsAreFine(DiskAfter(norm, d0, log[..i]).sessions, log[..i]);
      OnlyBadIdsAreRefused(norm, d0, log[..i], k);
    }
  }

  // -- the rest of the document -------------------------------------------------------------------

  /** The two documents agree on every key the loop does not own, the watchdog's counter aside, and on every artifact
      but the spec. */
  ghost predicate SameRest(d0: StateDoc, d: StateDoc) {
    && (forall key: DocKey {:trigger Get(d, key)} :: key !in OWNED && !key.ResumeCount? && !key.ResumedAt? ==> Get(d, key) == Get(d0, key))
    && (forall a: string {:trigger Get(Artifacts(d), a)} :: a != "spec" ==> Get(Artifacts(d), a) == Get(Artifacts(d0), a))
  }

  lemma PayloadSameRest(d0: StateDoc, s: St)
    requires SameRest(d0, s.raw)
    ensures SameRest(d0, Payload(s))
  {
    forall key: DocKey ensures key !in OWNED ==> Get(Payload(s), key) == Get(s.raw, key) {
      PayloadKeepsTheRest(s, key, "spec");
    }
    forall a: string ensures a != "spec" ==> Get(Artifacts(Payload(s)), a) == Get(Artifacts(s.raw), a) {
      PayloadKeepsTheRest(s, RepoParent, a);
    }
  }

  lemma ResumedSameRest(d0: StateDoc, d: StateDoc, deadline: int, count: int, at: string)
    requires SameRest(d0, d)
    ensures SameRest(d0, Resumed(d, deadline, count, at))
  {
    var r := Resumed(d, deadline, count, at);
    assert Artifacts(r) == Artifacts(d);
    assert forall key: DocKey :: key !in OWNED && !key.ResumeCount? && !key.ResumedAt? ==> Get(r, key) == Get(d, key);
  }

  lemma RestStep(norm: Norm, d0: StateDoc, m: Machine, e: Event)
    requires Enabled(m, e) && SameRest(d0, m.doc) && (m.mem.Some? ==> SameRest(d0, m.mem.value.raw))
    ensures var after := Next(norm, m, e);
            SameRest(d0, after.doc) && (after.mem.Some? ==> SameRest(d0, after.mem.value.raw))
  {
    match e
    case Rewrite(deadline, count, at) => ResumedSameRest(d0, m.doc, deadline, count, at);
    case RecordBase(stage, head) => PayloadSameRest(d0, Based(m.mem.value, stage, head));
    case RecordSession(stage, id) => PayloadSameRest(d0, WithSession(m.mem.value, stage, id));
    case RecordPr(number) => PayloadSameRest(d0, m.mem.value.(pr := Some(number)));
    case Advance(stage) => PayloadSameRest(d0, m.mem.value.(stage := stage));
    case _ =>
  }

  /** After any sequence of launches, commits and rewrites, what the loop does not own is as prepared. */
  lemma {:induction false} RestOfTheDocumentIsKept(norm: Norm, d0: StateDoc, log: seq<Event>)
    requires After(norm, d0, log).Some?
    ensures var m := After(norm, d0, log).value;
            SameRest(d0, m.doc) && (m.mem.Some? ==> SameRest(d0, m.mem.value.raw))
  {
    if log != [] {
      var n := |log| - 1;
      RestOfTheDocumentIsKept(norm, d0, log[..n]);
      RestStep(norm, d0, After(norm, d0, log[..n]).value, log[n]);
    }
  }
}
