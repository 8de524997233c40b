/** Deleting stale `auto/` branches (`gc.py`): what may go, and what is never lost. */
module BranchGc {
  import opened Common
  import opened Git
  import opened Sequences

  datatype Worktree = Worktree(present: bool, dirty: bool)

  datatype MergedPr = MergedPr(headOid: Option<Commit>, mergedAt: Option<int>)

  /** What git, `gh` and the file system answer during one invocation. */
  datatype World = World(
    names: Option<seq<string>>,          // the `auto/` branches; None when the listing failed
    worktreesListed: bool,
    base: Option<Commit>,
    tipReads: string -> bool,            // `rev-parse` of a branch answers
    baseAnswers: string -> bool,         // so does `merge-base` of a branch with base
    mergedPrs: map<string, seq<MergedPr>>,
    known: set<Commit>,                  // the PR heads `merge-base` answers for: those this clone has, at most
    openPr: string -> bool,
    inflight: string -> bool,
    runStamp: string -> Option<int>,
    tipDate: Commit -> Option<int>,
    now: int,
    removeFails: string -> bool,
    deleteFails: string -> bool,
    orphanFailures: nat)

  const DAY := 86_400
  const PIPELINE_PREFIX := "auto/pipeline-"

  // -- merged? ----------------------------------------------------------------------------

  /** Nothing on the branch at `tip` is missing from what this PR merged. */
  predicate Covers(dag: Dag, w: World, tip: Commit, pr: MergedPr) {
    pr.headOid.Some? && (pr.headOid.value == tip || (pr.headOid.value in w.known && dag.reaches(tip, pr.headOid.value)))
  }

  function FirstCovering(dag: Dag, w: World, tip: Commit, prs: seq<MergedPr>): Option<MergedPr> {
    if prs == [] then None
    else if Covers(dag, w, tip, prs[0]) then Some(prs[0])
    else FirstCovering(dag, w, tip, prs[1..])
  }

  /** The loop of `merged_pr_for`. */
  method MergedPrFor(dag: Dag, w: World, tip: Commit, prs: seq<MergedPr>) returns (pr: Option<MergedPr>)
    ensures pr == FirstCovering(dag, w, tip, prs)
  {
    for i := 0 to |prs|
      invariant FirstCovering(dag, w, tip, prs) == FirstCovering(dag, w, tip, prs[i..])
    {
      if prs[i].headOid.None? {
        continue;
      }
      if prs[i].headOid.value == tip {
        return Some(prs[i]);
      }
      if prs[i].headOid.value in w.known && dag.reaches(tip, prs[i].headOid.value) {
        return Some(prs[i]);
      }
    }
    pr := None;
  }

  lemma {:induction false} FirstCoveringCovers(dag: Dag, w: World, tip: Commit, prs: seq<MergedPr>)
    ensures FirstCovering(dag, w, tip, prs).Some? <==> exists i :: 0 <= i < |prs| && Covers(dag, w, tip, prs[i])
    ensures FirstCovering(dag, w, tip, prs).Some? ==> Covers(dag, w, tip, FirstCovering(dag, w, tip, prs).value)
  {
    if prs != [] {
      FirstCoveringCovers(dag, w, tip, prs[1..]);
      assert prs == [prs[0]] + prs[1..];
    }
  }

  /** The merged PRs a branch is compared with: none when its tip cannot be read. */
  function PrsOf(w: World, branch: string): seq<MergedPr> {
    if branch in w.mergedPrs && w.tipReads(branch) then w.mergedPrs[branch] else []
  }

  /** git says that base has all of the branch. */
  predicate OnBase(dag: Dag, w: World, branch: string, tip: Commit) {
    w.base.Some? && w.baseAnswers(branch) && dag.reaches(tip, w.base.value)
  }

  /** `is_merged`. */
  predicate IsMerged(dag: Dag, w: World, branch: string, tip: Commit) {
    FirstCovering(dag, w, tip, PrsOf(w, branch)).Some? || OnBase(dag, w, branch, tip)
  }

  /** Every commit of the branch is on base or was merged from a branch of the same name. */
  ghost predicate WorkIsSafe(dag: Dag, w: World, branch: string, tip: Commit) {
    || (w.base.Some? && dag.reaches(tip, w.base.value))
    || (branch in w.mergedPrs && exists pr :: pr in w.mergedPrs[branch] && pr.headOid.Some? && dag.reaches(tip, pr.headOid.value))
  }

  lemma MergedIsSafe(dag: Dag, w: World, branch: string, tip: Commit)
    requires Acyclic(dag) && IsMerged(dag, w, branch, tip)
    ensures WorkIsSafe(dag, w, branch, tip)
  {
    var prs := PrsOf(w, branch);
    FirstCoveringCovers(dag, w, tip, prs);
    if i :| 0 <= i < |prs| && Covers(dag, w, tip, prs[i]) {
      assert prs[i] in prs;
    }
  }

  // -- the inventory --------------------------------------------------------------------------

  /** `age`: seconds; None is unknown. */
  datatype Row = Row(branch: string, worktreeExists: bool, merged: bool, age: Option<int>)

  /** `branch_age_days`: the PR's merge, else the run stamp in the name, else the tip's date. */
  function Age(w: World, branch: string, tip: Commit, mergedAt: Option<int>): Option<int> {
    var at := if mergedAt.Some? then mergedAt else if w.runStamp(branch).Some? then w.runStamp(branch) else w.tipDate(tip);
    if at.Some? then Some(w.now - at.value) else None
  }

  predicate Stale(row: Row) {
    row.merged || !row.worktreeExists
  }

  /** `collectible`: a merged branch must also be old enough; an unknown age never is. */
  predicate Collectible(row: Row, olderThanDays: int) {
    Stale(row) && !(row.merged && olderThanDays > 0 && (row.age.None? || row.age.value < olderThanDays * DAY))
  }

  predicate IsPipeline(branch: string) {
    PIPELINE_PREFIX <= branch
  }

  /** `pipeline_branch_retained`. */
  predicate Retained(w: World, row: Row) {
    IsPipeline(row.branch) && (!row.merged || w.openPr(row.branch) || w.inflight(row.branch))
  }

  /** The row `collect_rows` makes of one branch. */
  function RowOf(dag: Dag, w: World, branch: string, tip: Commit, worktree: Option<Worktree>): Row {
    var pr := FirstCovering(dag, w, tip, PrsOf(w, branch));
    Row(branch, w.worktreesListed && worktree.Some? && worktree.value.present, IsMerged(dag, w, branch, tip),
        Age(w, branch, tip, if pr.Some? then pr.value.mergedAt else None))
  }

  function Rows(dag: Dag, w: World, names: seq<string>, branches: map<string, Commit>, worktrees: map<string, Worktree>): seq<Row>
    requires forall name :: name in names ==> name in branches
  {
    if names == [] then []
    else
      var last := names[|names| - 1];
      Rows(dag, w, names[..|names| - 1], branches, worktrees) + [RowOf(dag, w, last, branches[last], Get(worktrees, last))]
  }

  function Names(rows: seq<Row>): seq<string> {
    if rows == [] then [] else Names(rows[..|rows| - 1]) + [rows[|rows| - 1].branch]
  }

  function Shown(w: World): Row -> bool {
    (row: Row) => !Retained(w, row)
  }

  function CollectibleAt(olderThanDays: int): Row -> bool {
    (row: Row) => Collectible(row, olderThanDays)
  }

  function Merged(merged: bool): Row -> bool {
    (row: Row) => row.merged == merged
  }

  function Meets(w: World, worktrees: map<string, Worktree>, fate: Fate): Row -> bool {
    (row: Row) => FateOf(w, row.branch, Get(worktrees, row.branch)) == fate
  }

  /** The rows both halves of `gc` show. */
  function Visible(w: World, rows: seq<Row>): seq<Row> {
    Filter(Shown(w), rows)
  }

  /** The rows dry-run counts as eligible. */
  function Eligible(w: World, rows: seq<Row>, olderThanDays: int): seq<Row> {
    Filter(CollectibleAt(olderThanDays), Visible(w, rows))
  }

  /** How old a branch is: since its PR merged, else since the stamp in its name, else since its last commit. */
  lemma AgeMeans(w: World, branch: string, tip: Commit, mergedAt: Option<int>)
    ensures mergedAt.Some? ==> Age(w, branch, tip, mergedAt) == Some(w.now - mergedAt.value)
    ensures mergedAt.None? && w.runStamp(branch).Some? ==> Age(w, branch, tip, mergedAt) == Some(w.now - w.runStamp(branch).value)
    ensures mergedAt.None? && w.runStamp(branch).None? && w.tipDate(tip).Some? ==>
              Age(w, branch, tip, mergedAt) == Some(w.now - w.tipDate(tip).value)
    ensures mergedAt.None? && w.runStamp(branch).None? && w.tipDate(tip).None? ==> Age(w, branch, tip, mergedAt) == None
  {
  }

  /** Which rows may go: the merged that are old enough, if an age is asked for, and the unmerged without a directory. */
  lemma CollectibleMeans(row: Row, olderThanDays: int)
    ensures row.merged ==>
              (Collectible(row, olderThanDays) <==>
                 olderThanDays <= 0 || (row.age.Some? && row.age.value >= olderThanDays * 24 * 60 * 60))
    ensures !row.merged ==> (Collectible(row, olderThanDays) <==> !row.worktreeExists)
  {
  }

  /** Pipeline branches still needed: unmerged, with an open PR, or with a run in flight. */
  lemma RetainedMeans(w: World, row: Row)
    ensures Retained(w, row) <==>
              "auto/pipeline-" <= row.branch && (!row.merged || w.openPr(row.branch) || w.inflight(row.branch))
  {
  }

  /** Merged: base has the tip, or a merged PR of the name ended on it or on a known commit that has it. */
  lemma MergedMeans(dag: Dag, w: World, branch: string, tip: Commit)
    ensures IsMerged(dag, w, branch, tip) <==>
              || (w.base.Some? && w.baseAnswers(branch) && dag.reaches(tip, w.base.value))
              || (branch in w.mergedPrs && w.tipReads(branch) && exists i :: 0 <= i < |w.mergedPrs[branch]| && Merges(dag, w, tip, w.mergedPrs[branch][i]))
  {
    FirstCoveringCovers(dag, w, tip, PrsOf(w, branch));
    if branch in w.mergedPrs && w.tipReads(branch) {
      var prs := w.mergedPrs[branch];
      assert forall i :: 0 <= i < |prs| ==> (Covers(dag, w, tip, prs[i]) <==> Merges(dag, w, tip, prs[i]));
    }
  }

  predicate Merges(dag: Dag, w: World, tip: Commit, pr: MergedPr) {
    pr.headOid.Some? && (tip == pr.headOid.value || (dag.reaches(tip, pr.headOid.value) && pr.headOid.value in w.known))
  }

  // -- the delete run -------------------------------------------------------------------------

  datatype Fate = Deleted | FailedToDelete | SkippedDirty

  /** What becomes of a branch chosen for deletion. A worktree the listing missed is not looked at, but git refuses to
      delete a branch that is checked out. */
  function FateOf(w: World, branch: string, worktree: Option<Worktree>): Fate {
    if worktree.None? then if w.deleteFails(branch) then FailedToDelete else Deleted
    else if !w.worktreesListed then FailedToDelete
    else if worktree.value.present && worktree.value.dirty then SkippedDirty
    else if w.removeFails(branch) || w.deleteFails(branch) then FailedToDelete
    else Deleted
  }

  /** Deleted: git deletes the branch, and its worktree, if it has one that the listing showed, is clean or gone and goes. */
  lemma FateMeans(w: World, branch: string, worktree: Option<Worktree>)
    ensures FateOf(w, branch, worktree) == Deleted <==>
              && !w.deleteFails(branch)
              && (worktree.Some? ==>
                    w.worktreesListed && (worktree.value.present ==> !worktree.value.dirty) && !w.removeFails(branch))
    ensures FateOf(w, branch, worktree) == SkippedDirty <==>
              w.worktreesListed && worktree.Some? && worktree.value.present && worktree.value.dirty
  {
  }

  function WithFate(w: World, fate: Fate, rows: seq<Row>, worktrees: map<string, Worktree>): seq<string> {
    Names(Filter(Meets(w, worktrees, fate), rows))
  }

  /** The three lists the loop fills. */
  predicate Fated(w: World, rows: seq<Row>, worktrees: map<string, Worktree>,
                  deleted: seq<string>, failed: seq<string>, dirty: seq<string>) {
    && deleted == WithFate(w, Deleted, rows, worktrees)
    && failed == WithFate(w, FailedToDelete, rows, worktrees)
    && dirty == WithFate(w, SkippedDirty, rows, worktrees)
  }

  /** The rows from `i` on are still as they were. */
  ghost predicate Pending(rows: seq<Row>, i: nat, branches: map<string, Commit>, worktrees: map<string, Worktree>,
                          worktrees0: map<string, Worktree>) {
    forall j :: i <= j < |rows| ==>
      rows[j].branch in branches && Get(worktrees, rows[j].branch) == Get(worktrees0, rows[j].branch)
  }

  /** Exactly the branches in `gone` went. */
  ghost predicate Without(before: map<string, Commit>, after: map<string, Commit>, gone: seq<string>) {
    forall b {:trigger Get(after, b)} :: Get(after, b) == if b in gone then None else Get(before, b)
  }

  /** No worktree with uncommitted work was touched. */
  ghost predicate KeepsDirty(before: map<string, Worktree>, after: map<string, Worktree>) {
    forall b :: b in before && before[b].present && before[b].dirty ==> b in after && after[b] == before[b]
  }

  /** Exit code and the four lists of the summary line. */
  datatype Summary = Summary(code: int, deleted: seq<string>, failed: seq<string>, dirty: seq<string>, skipped: seq<string>)

  /** The branches git lists are distinct and exist. */
  ghost predicate Lists(w: World, branches: map<string, Commit>) {
    w.names.Some? ==>
      && (forall i, j :: 0 <= i < j < |w.names.value| ==> w.names.value[i] != w.names.value[j])
      && (forall i :: 0 <= i < |w.names.value| ==> w.names.value[i] in branches)
  }

  /** What `gc --delete` would go for with the given switches. */
  function ToDelete(rows: seq<Row>, force: bool): seq<Row> {
    if force then rows else Filter(Merged(true), rows)
  }

  function Skipped(rows: seq<Row>, force: bool): seq<Row> {
    if force then [] else Filter(Merged(false), rows)
  }

  class Repo {
    var branches: map<string, Commit>
    var worktrees: map<string, Worktree>

    /** `collect_rows`. */
    method CollectRows(dag: Dag, w: World, names: seq<string>) returns (rows: seq<Row>)
      requires forall i :: 0 <= i < |names| ==> names[i] in branches
      ensures rows == Rows(dag, w, names, branches, worktrees)
    {
      rows := [];
      for i := 0 to |names|
        invariant rows == Rows(dag, w, names[..i], branches, worktrees)
      {
        Snoc(names, i);
        var branch, tip := names[i], branches[names[i]];
        var pr := MergedPrFor(dag, w, tip, PrsOf(w, branch));
        var merged := pr.Some? || OnBase(dag, w, branch, tip);
        var present := w.worktreesListed && branch in worktrees && worktrees[branch].present;
        rows := rows + [Row(branch, present, merged, Age(w, branch, tip, if pr.Some? then pr.value.mergedAt else None))];
      }
      assert names[..|names|] == names;
    }

    /** One turn of the loop: look for uncommitted work, remove the worktree, delete the branch. */
    method Collect(w: World, branch: string) returns (fate: Fate)
      requires branch in branches
      modifies this
      ensures fate == FateOf(w, branch, old(Get(worktrees, branch)))
      ensures branches == if fate.Deleted? then old(branches) - {branch} else old(branches)
      ensures worktrees == old(worktrees) || worktrees == old(worktrees) - {branch}
      ensures worktrees != old(worktrees) ==> !(old(worktrees)[branch].present && old(worktrees)[branch].dirty)
    {
      if w.worktreesListed && branch in worktrees {
        if worktrees[branch].present && worktrees[branch].dirty {
          return SkippedDirty;
        }
        if w.removeFails(branch) {
          return FailedToDelete;
        }
        worktrees := worktrees - {branch};
      }
      if branch in worktrees || w.deleteFails(branch) {
        return FailedToDelete;
      }
      branches := branches - {branch};
      fate := Deleted;
    }

    /** The deletion loop of `run_gc_delete`. */
    method DeleteAll(w: World, rows: seq<Row>) returns (deleted: seq<string>, failed: seq<string>, dirty: seq<string>)
      requires forall i, j :: 0 <= i < j < |rows| ==> rows[i].branch != rows[j].branch
      requires Pending(rows, 0, branches, worktrees, worktrees)
      modifies this
      ensures Fated(w, rows, old(worktrees), deleted, failed, dirty)
      ensures Without(old(branches), branches, deleted) && KeepsDirty(old(worktrees), worktrees)
    {
      deleted, failed, dirty := [], [], [];
      ghost var branches0, worktrees0 := branches, worktrees;
      for i := 0 to |rows|
        invariant Fated(w, rows[..i], worktrees0, deleted, failed, dirty)
        invariant Without(branches0, branches, deleted) && KeepsDirty(worktrees0, worktrees)
        invariant Pending(rows, i, branches, worktrees, worktrees0)
      {
        FatedStep(w, rows, i, worktrees0, deleted, failed, dirty);
        var fate := CollectNext(w, rows, i, branches0, worktrees0, deleted);
        match fate
        case Deleted => deleted := deleted + [rows[i].branch];
        case FailedToDelete => failed := failed + [rows[i].branch];
        case SkippedDirty => dirty := dirty + [rows[i].branch];
      }
      assert rows[..|rows|] == rows;
    }

    method CollectNext(w: World, rows: seq<Row>, i: nat, ghost branches0: map<string, Commit>,
                       ghost worktrees0: map<string, Worktree>, ghost deleted: seq<string>) returns (fate: Fate)
      requires i < |rows| && (forall j, k :: 0 <= j < k < |rows| ==> rows[j].branch != rows[k].branch)
      requires Pending(rows, i, branches, worktrees, worktrees0)
      requires Without(branches0, branches, deleted) && KeepsDirty(worktrees0, worktrees)
      modifies this
      ensures fate == FateOf(w, rows[i].branch, Get(worktrees0, rows[i].branch))
      ensures Without(branches0, branches, if fate.Deleted? then deleted + [rows[i].branch] else deleted)
      ensures KeepsDirty(worktrees0, worktrees) && Pending(rows, i + 1, branches, worktrees, worktrees0)
    {
      fate := Collect(w, rows[i].branch);
      forall b ensures Get(branches, b) == if b in (if fate.Deleted? then deleted + [rows[i].branch] else deleted) then None else Get(branches0, b) {
        assert Get(old(branches), b) == if b in deleted then None else Get(branches0, b);
      }
    }

    /** `run_gc_delete`, the orphan sweep reduced to its number of failures. */
    method RunGcDelete(dag: Dag, w: World, force: bool, assumeYes: bool, olderThanDays: int) returns (s: Summary)
      requires Lists(w, branches)
      modifies this
      ensures w.names.None? ==> s == Summary(1, [], [], [], [])
      ensures w.names.Some? ==>
        var eligible := Eligible(w, Rows(dag, w, w.names.value, old(branches), old(worktrees)), olderThanDays);
        if eligible == [] then s == Summary(if w.orphanFailures > 0 then 1 else 0, [], [], [], [])
        else if !assumeYes then s == Summary(2, [], [], [], [])
        else
          && Fated(w, ToDelete(eligible, force), old(worktrees), s.deleted, s.failed, s.dirty)
          && s.skipped == Names(Skipped(eligible, force))
          && (s.code == if s.failed != [] || w.orphanFailures > 0 then 1 else 0)
      ensures Without(old(branches), branches, s.deleted) && KeepsDirty(old(worktrees), worktrees)
    {
      s := Summary(1, [], [], [], []);
      if w.names.None? {
        return;
      }
      var rows := CollectRows(dag, w, w.names.value);
      var candidates := Eligible(w, rows, olderThanDays);
      if candidates == [] {
        return Summary(if w.orphanFailures > 0 then 1 else 0, [], [], [], []);
      }
      if !assumeYes {
        return Summary(2, [], [], [], []);
      }
      EligibleDistinct(dag, w, w.names.value, branches, worktrees, olderThanDays, force);
      var deleted, failed, dirty := DeleteAll(w, ToDelete(candidates, force));
      s := Summary(if failed != [] || w.orphanFailures > 0 then 1 else 0, deleted, failed, dirty,
                   Names(Skipped(candidates, force)));
    }
  }

  // -- lemmas about the lists ---------------------------------------------------------------------

  /** `rows` are rows of distinct branches taken from `names`. */
  ghost predicate DistinctRows(rows: seq<Row>, names: seq<string>) {
    && (forall i, j :: 0 <= i < j < |rows| ==> rows[i].branch != rows[j].branch)
    && (forall i :: 0 <= i < |rows| ==> rows[i].branch in names)
  }

  lemma {:induction false} RowsDistinct(dag: Dag, w: World, names: seq<string>, branches: map<string, Commit>,
                                        worktrees: map<string, Worktree>)
    requires forall i, j :: 0 <= i < j < |names| ==> names[i] != names[j]
    requires forall name :: name in names ==> name in branches
    ensures var rows := Rows(dag, w, names, branches, worktrees);
            |rows| == |names| && forall i :: 0 <= i < |rows| ==> rows[i] == RowOf(dag, w, names[i], branches[names[i]], Get(worktrees, names[i]))
  {
    if names != [] {
      RowsDistinct(dag, w, names[..|names| - 1], branches, worktrees);
    }
  }

  lemma NamesStep(p: Row -> bool, rows: seq<Row>, last: Row)
    ensures Names(Filter(p, rows + [last])) == Names(Filter(p, rows)) + if p(last) then [last.branch] else []
  {
    FilterStep(p, rows, last);
    if p(last) {
      NamesSnoc(Filter(p, rows), last);
    } else {
      assert Filter(p, rows) + [] == Filter(p, rows);
      assert Names(Filter(p, rows)) + [] == Names(Filter(p, rows));
    }
  }

  lemma NamesSnoc(rows: seq<Row>, last: Row)
    ensures Names(rows + [last]) == Names(rows) + [last.branch]
  {
    assert (rows + [last])[..|rows|] == rows;
  }

  lemma FatedStep(w: World, rows: seq<Row>, i: nat, worktrees: map<string, Worktree>,
                  deleted: seq<string>, failed: seq<string>, dirty: seq<string>)
    requires i < |rows| && Fated(w, rows[..i], worktrees, deleted, failed, dirty)
    ensures var b, fate := rows[i].branch, FateOf(w, rows[i].branch, Get(worktrees, rows[i].branch));
            Fated(w, rows[..i + 1], worktrees, if fate.Deleted? then deleted + [b] else deleted,
                  if fate.FailedToDelete? then failed + [b] else failed, if fate.SkippedDirty? then dirty + [b] else dirty)
  {
    Snoc(rows, i);
    NamesStep(Meets(w, worktrees, Deleted), rows[..i], rows[i]);
    NamesStep(Meets(w, worktrees, FailedToDelete), rows[..i], rows[i]);
    NamesStep(Meets(w, worktrees, SkippedDirty), rows[..i], rows[i]);
  }

  lemma {:induction false} FilterDistinct(p: Row -> bool, rows: seq<Row>, names: seq<string>)
    requires DistinctRows(rows, names)
    ensures DistinctRows(Filter(p, rows), names)
  {
    if rows != [] {
      var n := |rows| - 1;
      FilterDistinct(p, rows[..n], names);
      var kept := Filter(p, rows[..n]);
      forall i | 0 <= i < |kept| ensures kept[i].branch != rows[n].branch {
        FilterKeeps(p, rows[..n], kept[i]);
      }
    }
  }

  lemma EligibleDistinct(dag: Dag, w: World, names: seq<string>, branches: map<string, Commit>,
                         worktrees: map<string, Worktree>, olderThanDays: int, force: bool)
    requires forall i, j :: 0 <= i < j < |names| ==> names[i] != names[j]
    requires forall name :: name in names ==> name in branches
    ensures DistinctRows(ToDelete(Eligible(w, Rows(dag, w, names, branches, worktrees), olderThanDays), force), names)
  {
    var rows := Rows(dag, w, names, branches, worktrees);
    RowsDistinct(dag, w, names, branches, worktrees);
    FilterDistinct(Shown(w), rows, names);
    FilterDistinct(CollectibleAt(olderThanDays), Visible(w, rows), names);
    FilterDistinct(Merged(true), Eligible(w, rows, olderThanDays), names);
  }

  // -- what a delete run guarantees -----------------------------------------------------------------

  lemma {:induction false} NamesOf(rows: seq<Row>, b: string)
    ensures b in Names(rows) <==> exists row :: row in rows && row.branch == b
    ensures |Names(rows)| == |rows|
  {
    if rows != [] {
      var n := |rows| - 1;
      NamesOf(rows[..n], b);
      assert rows == rows[..n] + [rows[n]];
      if row :| row in rows && row.branch == b {
        assert row in rows[..n] || row == rows[n];
      }
    }
  }

  /** The row of an eligible branch, and why it is one. */
  lemma EligibleRow(dag: Dag, w: World, names: seq<string>, branches: map<string, Commit>,
                    worktrees: map<string, Worktree>, olderThanDays: int, row: Row)
    requires forall i, j :: 0 <= i < j < |names| ==> names[i] != names[j]
    requires forall name :: name in names ==> name in branches
    requires row in Eligible(w, Rows(dag, w, names, branches, worktrees), olderThanDays)
    ensures row.branch in names && row == RowOf(dag, w, row.branch, branches[row.branch], Get(worktrees, row.branch))
    ensures Collectible(row, olderThanDays) && !Retained(w, row)
  {
    var rows := Rows(dag, w, names, branches, worktrees);
    RowsDistinct(dag, w, names, branches, worktrees);
    FilterKeeps(CollectibleAt(olderThanDays), Visible(w, rows), row);
    FilterKeeps(Shown(w), rows, row);
  }

  /** No work is lost: a deleted branch's commits are all on base or in a merged PR of its name, its worktree was
      clean or gone, and it is no pipeline branch still needed. `--force` adds nothing but branches of no pipeline,
      unmerged, whose worktree directory is gone. */
  lemma DeletedIsSafe(dag: Dag, w: World, force: bool, olderThanDays: int, names: seq<string>,
                      branches: map<string, Commit>, worktrees: map<string, Worktree>, b: string)
    requires Acyclic(dag) && w.names == Some(names) && Lists(w, branches)
    requires b in WithFate(w, Deleted, ToDelete(Eligible(w, Rows(dag, w, names, branches, worktrees), olderThanDays), force), worktrees)
    ensures b in branches && b in names
    ensures WorkIsSafe(dag, w, b, branches[b]) || (force && !IsPipeline(b) && !IsMerged(dag, w, b, branches[b]))
    ensures b in worktrees ==> w.worktreesListed && !(worktrees[b].present && worktrees[b].dirty)
    ensures !IsMerged(dag, w, b, branches[b]) ==> b !in worktrees || !worktrees[b].present
    ensures IsPipeline(b) ==> !w.openPr(b) && !w.inflight(b)
    ensures IsMerged(dag, w, b, branches[b]) && olderThanDays > 0 ==>
              exists age :: RowOf(dag, w, b, branches[b], Get(worktrees, b)).age == Some(age) && age >= olderThanDays * DAY
  {
    var eligible := Eligible(w, Rows(dag, w, names, branches, worktrees), olderThanDays);
    var chosen := ToDelete(eligible, force);
    NamesOf(Filter(Meets(w, worktrees, Deleted), chosen), b);
    var row :| row in Filter(Meets(w, worktrees, Deleted), chosen) && row.branch == b;
    FilterKeeps(Meets(w, worktrees, Deleted), chosen, row);
    FilterKeeps(Merged(true), eligible, row);
    EligibleRow(dag, w, names, branches, worktrees, olderThanDays, row);
    if IsMerged(dag, w, b, branches[b]) {
      MergedIsSafe(dag, w, b, branches[b]);
    }
  }

  /** What is left to go does go: a merged branch old enough, no pipeline branch still needed, is deleted, unless its
      worktree holds uncommitted work or git refuses. */
  lemma OldMergedIsDeleted(dag: Dag, w: World, force: bool, olderThanDays: int, names: seq<string>,
                           branches: map<string, Commit>, worktrees: map<string, Worktree>, b: string)
    requires w.names == Some(names) && Lists(w, branches) && b in names && IsMerged(dag, w, b, branches[b])
    requires olderThanDays <= 0
             || exists age :: RowOf(dag, w, b, branches[b], Get(worktrees, b)).age == Some(age) && age >= olderThanDays * 24 * 60 * 60
    requires "auto/pipeline-" <= b ==> !w.openPr(b) && !w.inflight(b)
    requires b in worktrees ==> w.worktreesListed && !(worktrees[b].present && worktrees[b].dirty) && !w.removeFails(b)
    requires !w.deleteFails(b)
    ensures b in WithFate(w, Deleted, ToDelete(Eligible(w, Rows(dag, w, names, branches, worktrees), olderThanDays), force), worktrees)
  {
    var rows := Rows(dag, w, names, branches, worktrees);
    var row := RowOf(dag, w, b, branches[b], Get(worktrees, b));
    RowIsListed(dag, w, names, branches, worktrees, b);
    CollectibleMeans(row, olderThanDays);
    IsEligible(w, rows, olderThanDays, row);
    GoesWithFate(w, Eligible(w, rows, olderThanDays), force, worktrees, row);
  }

  lemma RowIsListed(dag: Dag, w: World, names: seq<string>, branches: map<string, Commit>, worktrees: map<string, Worktree>, b: string)
    requires w.names == Some(names) && Lists(w, branches) && b in names
    ensures RowOf(dag, w, b, branches[b], Get(worktrees, b)) in Rows(dag, w, names, branches, worktrees)
  {
    var rows := Rows(dag, w, names, branches, worktrees);
    RowsDistinct(dag, w, names, branches, worktrees);
    var i :| 0 <= i < |names| && names[i] == b;
    assert rows[i] == RowOf(dag, w, b, branches[b], Get(worktrees, b));
  }

  lemma IsEligible(w: World, rows: seq<Row>, olderThanDays: int, row: Row)
    requires row in rows && !Retained(w, row) && Collectible(row, olderThanDays)
    ensures row in Eligible(w, rows, olderThanDays)
  {
    FilterKeeps(Shown(w), rows, row);
    FilterKeeps(CollectibleAt(olderThanDays), Visible(w, rows), row);
  }

  lemma GoesWithFate(w: World, eligible: seq<Row>, force: bool, worktrees: map<string, Worktree>, row: Row)
    requires row in eligible && row.merged && FateOf(w, row.branch, Get(worktrees, row.branch)) == Deleted
    ensures row.branch in WithFate(w, Deleted, ToDelete(eligible, force), worktrees)
  {
    FilterKeeps(Merged(true), eligible, row);
    FilterKeeps(Meets(w, worktrees, Deleted), ToDelete(eligible, force), row);
    NamesOf(Filter(Meets(w, worktrees, Deleted), ToDelete(eligible, force)), row.branch);
  }

  lemma {:induction false} FatesPartition(w: World, rows: seq<Row>, worktrees: map<string, Worktree>)
    ensures multiset(WithFate(w, Deleted, rows, worktrees)) + multiset(WithFate(w, FailedToDelete, rows, worktrees))
            + multiset(WithFate(w, SkippedDirty, rows, worktrees)) == multiset(Names(rows))
  {
    if rows != [] {
      var n := |rows| - 1;
      FatesPartition(w, rows[..n], worktrees);
      Snoc(rows, n);
      NamesStep(Meets(w, worktrees, Deleted), rows[..n], rows[n]);
      NamesStep(Meets(w, worktrees, FailedToDelete), rows[..n], rows[n]);
      NamesStep(Meets(w, worktrees, SkippedDirty), rows[..n], rows[n]);
    }
  }

  lemma {:induction false} MergedPartition(rows: seq<Row>)
    ensures multiset(Names(Filter(Merged(true), rows))) + multiset(Names(Filter(Merged(false), rows))) == multiset(Names(rows))
  {
    if rows != [] {
      var n := |rows| - 1;
      MergedPartition(rows[..n]);
      Snoc(rows, n);
      NamesStep(Merged(true), rows[..n], rows[n]);
      NamesStep(Merged(false), rows[..n], rows[n]);
    }
  }

  /** Every branch dry-run counts as eligible ends in exactly one of the four lists of the summary. */
  lemma SummaryAccountsForEligible(w: World, eligible: seq<Row>, force: bool, worktrees: map<string, Worktree>)
    ensures var chosen := ToDelete(eligible, force);
            multiset(WithFate(w, Deleted, chosen, worktrees)) + multiset(WithFate(w, FailedToDelete, chosen, worktrees))
            + multiset(WithFate(w, SkippedDirty, chosen, worktrees)) + multiset(Names(Skipped(eligible, force)))
            == multiset(Names(eligible))
  {
    FatesPartition(w, ToDelete(eligible, force), worktrees);
    MergedPartition(eligible);
  }
}
