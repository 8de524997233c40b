/** The nightly self-update (`self_update.py`): a transaction on the runner's checkout, night after night. */
module SelfUpdate {
  import opened Common
  import opened CommitChecks
  import opened Git

  /** `validate`: the number of valid jobs, unless it failed, timed out or printed no count. */
  datatype Validate = Failed | Passed(jobs: nat)

  /** Where the process dies, if it gets there: with nothing done; once `git merge` is over; once `reset --keep` is;
      while the rejected commit is written, which cuts the file; or with only the report left to make. An error writing
      that file ends the run like a death there. */
  datatype Kill = Lives | BeforeMerge | AfterMerge | AfterReset | InRecord | AfterRecord

  /** Everything outside the program that one run meets. */
  datatype Night = Night(
    locked: nat -> bool,            // the tick lock is held by another at the i-th try
    dryRun: bool,
    runOpen: bool,                  // a pipeline run is in flight
    headReads: bool, branch: string, dirty: bool,
    uv: bool,
    fetched: bool, origin: Commit,  // `origin/<base>` once fetched
    remoteNamed: bool,
    checks: Option<seq<Check>>,     // None: the query failed
    baseline: Validate,
    mergeBlocked: bool,             // git refuses a possible fast-forward
    mergeTimedOut: bool, landedAnyway: bool,
    headReadsAfter: bool,
    post: Validate,
    resetRefused: bool,
    kill: Kill)

  /** `Killed`: no result at all. */
  datatype Status = UpToDate | Updated | Deferred | Refused | RolledBack | Killed

  datatype Result = Result(status: Status, before: Option<Commit>, target: Option<Commit>, notified: bool, thirdSha: bool)

  function ExitCode(r: Result): int {
    if r.status in {UpToDate, Updated, Deferred} then 0 else 1
  }

  /** What persists from night to night: HEAD, and the state file's rejected commit. */
  datatype Host = Host(head: Commit, rejected: Option<Commit>)

  // -- what one run may do ----------------------------------------------------------------------

  const POLL_S := 5

  function Polls(waitS: int): nat {
    if waitS < 0 then 0 else waitS / POLL_S
  }

  predicate LockFree(n: Night, waitS: int) {
    exists i :: 0 <= i <= Polls(if n.dryRun then 0 else waitS) && !n.locked(i)
  }

  /** The checkout is in a state the command works on. */
  predicate Workable(base: string, n: Night) {
    n.headReads && n.branch == base && base != "" && base != "HEAD" && !n.dirty && n.uv && n.fetched && n.origin != ""
  }

  predicate Green(n: Night) {
    n.remoteNamed && n.checks.Some? && EvaluateCommitChecks(n.checks.value)
  }

  /** The run gets as far as `git merge --ff-only`. */
  predicate Attempted(base: string, waitS: int, h: Host, n: Night) {
    && !n.kill.BeforeMerge? && LockFree(n, waitS) && !n.runOpen && Workable(base, n)
    && n.origin != h.head && Some(n.origin) != h.rejected && Green(n) && !n.dryRun
  }

  /** The attempted merge moves HEAD. */
  predicate Lands(dag: Dag, h: Host, n: Night) {
    && h.head != n.origin && dag.reaches(h.head, n.origin)
    && !n.mergeBlocked && (n.mergeTimedOut ==> n.landedAnyway)
  }

  predicate Validated(n: Night) {
    n.post.Passed? && (n.baseline.Passed? ==> n.baseline.jobs <= n.post.jobs)
  }

  /** After the merge the run still learns what it did. */
  predicate Answers(n: Night) {
    !n.mergeTimedOut && n.headReadsAfter
  }

  /** The run finds that it merged a commit that does not validate, and sets about undoing it. */
  predicate Undoes(dag: Dag, base: string, waitS: int, h: Host, n: Night) {
    Attempted(base, waitS, h, n) && Lands(dag, h, n) && !n.kill.AfterMerge? && Answers(n) && !Validated(n)
  }

  predicate Dies(dag: Dag, base: string, waitS: int, h: Host, n: Night) {
    || n.kill.BeforeMerge?
    || (n.kill.AfterMerge? && Attempted(base, waitS, h, n))
    || ((n.kill.AfterReset? || n.kill.InRecord? || n.kill.AfterRecord?) && Undoes(dag, base, waitS, h, n))
  }

  /** Where HEAD and the rejected commit end. */
  function Ends(dag: Dag, base: string, waitS: int, h: Host, n: Night): Host {
    var undoes := Undoes(dag, base, waitS, h, n);
    Host(
      if Attempted(base, waitS, h, n) && Lands(dag, h, n) && !(undoes && !n.resetRefused) then n.origin else h.head,
      if !undoes || n.kill.AfterReset? then h.rejected else if n.kill.InRecord? then None else Some(n.origin))
  }

  /** One night: exactly when each status is reported, and where HEAD and the rejected commit end. */
  ghost predicate Step(dag: Dag, base: string, waitS: int, h: Host, n: Night, r: Result, after: Host) {
    var attempted := Attempted(base, waitS, h, n);
    var free := LockFree(n, waitS) && !n.runOpen;
    var dies := Dies(dag, base, waitS, h, n);
    && after == Ends(dag, base, waitS, h, n)
    && (r.status == Killed <==> dies)
    && (r.status == Updated <==> !dies && attempted && Lands(dag, h, n) && Answers(n) && Validated(n))
    && (r.status == RolledBack <==> !dies && Undoes(dag, base, waitS, h, n))
    && (r.status == UpToDate <==>
          && !dies
          && (|| (free && Workable(base, n) && n.origin == h.head && h.rejected != Some(n.origin))
              || (attempted && dag.reaches(n.origin, h.head) && Answers(n))))
    && (r.status == Deferred <==>
          && !dies
          && (|| !free
              || (Workable(base, n) && n.origin != h.head && (h.rejected == Some(n.origin) || !Green(n) || n.dryRun))))
    && (r.notified <==> r.status in {Updated, RolledBack, Refused} || (!dies && !LockFree(n, waitS) && !n.dryRun))
    && (r.thirdSha ==> r.status == Refused && attempted && !Answers(n))
    && (r.status == Updated ==> r.before == Some(h.head) && r.target == Some(after.head))
    && (r.status == RolledBack ==> r.before == Some(h.head) && r.target == Some(n.origin))
  }

  const KILLED := Result(Killed, None, None, false, false)

  class Runner {
    var head: Commit
    var rejected: Option<Commit>

    function Now(): Host
      reads this
    {
      Host(head, rejected)
    }

    constructor (h: Host)
      ensures Now() == h
    {
      head, rejected := h.head, h.rejected;
    }

    /** `_wait_for_tick_lock`: one try, then one more after each poll. */
    method WaitForTickLock(n: Night, waitS: int) returns (acquired: bool, slept: nat)
      ensures acquired <==> exists i :: 0 <= i <= Polls(waitS) && !n.locked(i)
      ensures slept <= Polls(waitS) && forall i :: 0 <= i < slept ==> n.locked(i)
    {
      slept := 0;
      var attempt := 0;
      while true
        invariant slept == attempt <= Polls(waitS)
        invariant forall i :: 0 <= i < attempt ==> n.locked(i)
        decreases Polls(waitS) - attempt
      {
        acquired := !n.locked(attempt);
        if acquired || attempt == Polls(waitS) {
          return;
        }
        slept := slept + 1;
        attempt := attempt + 1;
      }
    }

    /** `git merge --ff-only sha`: a no-op when HEAD already contains it. */
    method FastForwardTo(dag: Dag, n: Night, sha: Commit) returns (ok: bool)
      requires Acyclic(dag)
      modifies this`head
      ensures ok <==> !n.mergeTimedOut && (dag.reaches(sha, old(head)) || (dag.reaches(old(head), sha) && !n.mergeBlocked))
      ensures head == if old(head) != sha && dag.reaches(old(head), sha) && !n.mergeBlocked && (n.mergeTimedOut ==> n.landedAnyway)
                      then sha else old(head)
    {
      if dag.reaches(sha, head) {
        return !n.mergeTimedOut;
      }
      if !dag.reaches(head, sha) || n.mergeBlocked {
        return false;
      }
      if n.mergeTimedOut {
        if n.landedAnyway {
          head := sha;
        }
        return false;
      }
      head := sha;
      ok := true;
    }

    /** `reset --keep`, then the rejected commit is remembered whether or not HEAD went back. */
    method RolledBackTo(n: Night, before: Commit, target: Commit) returns (r: Result)
      modifies this
      ensures r == if n.kill.AfterReset? || n.kill.InRecord? || n.kill.AfterRecord? then KILLED
                   else Result(RolledBack, Some(before), Some(target), true, false)
      ensures head == if n.resetRefused then old(head) else before
      ensures rejected == if n.kill.AfterReset? then old(rejected) else if n.kill.InRecord? then None else Some(target)
    {
      if !n.resetRefused {
        head := before;
      }
      if n.kill.AfterReset? {
        return KILLED;
      }
      rejected := None;
      if n.kill.InRecord? {
        return KILLED;
      }
      rejected := Some(target);
      if n.kill.AfterRecord? {
        return KILLED;
      }
      r := Result(RolledBack, Some(before), Some(target), true, false);
    }

    method SelfUpdate(dag: Dag, base: string, waitS: int, n: Night) returns (r: Result)
      requires Acyclic(dag) && head != ""
      modifies this
      ensures Step(dag, base, waitS, old(Now()), n, r, Now())
      ensures r.status == Updated ==> n.post.Passed? && (n.baseline.Passed? ==> n.post.jobs >= n.baseline.jobs)
      ensures r.status == RolledBack ==> n.post.Failed? || (n.baseline.Passed? && n.post.jobs < n.baseline.jobs)
    {
      if n.kill.BeforeMerge? {
        return KILLED;
      }
      var acquired, _ := WaitForTickLock(n, if n.dryRun then 0 else waitS);
      if !acquired {
        return Result(Deferred, None, None, !n.dryRun, false);
      }
      if n.runOpen {
        return Result(Deferred, None, None, false, false);
      }
      var before := if n.headReads then head else "";
      if before == "" || n.branch == "" {
        return Result(Refused, None, None, true, false);
      }
      if n.dirty || n.branch == "HEAD" || n.branch != base || !n.uv || !n.fetched {
        return Result(Refused, Some(before), None, true, false);
      }
      var target := n.origin;
      if target == "" {
        return Result(Refused, Some(before), None, true, false);
      }
      if target == before {
        if Some(target) == rejected {
          return Result(Refused, Some(before), None, true, false);
        }
        return Result(UpToDate, Some(before), Some(before), false, false);
      }
      if Some(target) == rejected {
        return Result(Deferred, None, None, false, false);
      }
      if !n.remoteNamed || n.checks.None? || !EvaluateCommitChecks(n.checks.value) {
        return Result(Deferred, None, None, false, false);
      }
      if n.dryRun {
        return Result(Deferred, Some(before), Some(target), false, false);
      }
      r := Deploy(dag, base, waitS, n);
    }

    /** The merge, the re-read of HEAD, and the verdict on what it landed on. */
    method Deploy(dag: Dag, base: string, waitS: int, n: Night) returns (r: Result)
      requires Acyclic(dag) && head != "" && Attempted(base, waitS, Now(), n)
      modifies this
      ensures Step(dag, base, waitS, old(Now()), n, r, Now())
      ensures r.status == Updated ==> n.post.Passed? && (n.baseline.Passed? ==> n.post.jobs >= n.baseline.jobs)
      ensures r.status == RolledBack ==> n.post.Failed? || (n.baseline.Passed? && n.post.jobs < n.baseline.jobs)
    {
      var before, target := head, n.origin;
      var baseline := if n.baseline.Passed? then Some(n.baseline.jobs) else None;
      var ok := FastForwardTo(dag, n, target);
      if n.kill.AfterMerge? {
        return KILLED;
      }
      if !ok {
        return Result(Refused, Some(before), None, true, false);
      }
      var headAfter := if n.headReadsAfter then head else "";
      if headAfter != before && headAfter != target {
        return Result(Refused, Some(before), None, true, true);
      }
      if headAfter == before {
        return Result(UpToDate, Some(before), Some(before), false, false);
      }
      var dropped := n.post.Passed? && baseline.Some? && n.post.jobs < baseline.value;
      if n.post.Failed? || dropped {
        r := RolledBackTo(n, before, headAfter);
      } else {
        r := Result(Updated, Some(before), Some(headAfter), true, false);
      }
    }
  }

  // -- night after night ------------------------------------------------------------------------

  datatype Log = Log(hosts: seq<Host>, nights: seq<Night>, results: seq<Result>)

  /** Consecutive nights; origin, the lock, CI and the host's validation are free to differ every night. */
  ghost predicate Nightly(dag: Dag, base: string, waitS: int, log: Log) {
    && |log.hosts| == |log.nights| + 1 && |log.results| == |log.nights|
    && forall i :: 0 <= i < |log.nights| ==>
         Step(dag, base, waitS, log.hosts[i], log.nights[i], log.results[i], log.hosts[i + 1])
  }

  /** HEAD only ever moves up the DAG, onto the very commit CI accepted that night, and a rollback never moves it
      anywhere else; this holds even when git stops answering midway. */
  lemma HeadMovesOntoGatedDescendant(dag: Dag, base: string, waitS: int, log: Log, i: nat)
    requires Acyclic(dag) && Nightly(dag, base, waitS, log) && i < |log.nights|
    requires log.hosts[i + 1].head != log.hosts[i].head
    ensures var h, n := log.hosts[i], log.nights[i];
            && log.hosts[i + 1].head == n.origin && dag.reaches(h.head, n.origin) && h.head != n.origin
            && n.checks.Some? && n.checks.value != []
            && (forall k :: 0 <= k < |n.checks.value| ==> !Pending(n.checks.value[k]) && Accepted(n.checks.value[k]))
            && h.rejected != Some(n.origin) && !n.dryRun && !n.dirty && LockFree(n, waitS)
            && !n.mergeBlocked && (n.mergeTimedOut ==> n.landedAnyway)
  {
    assert Step(dag, base, waitS, log.hosts[i], log.nights[i], log.results[i], log.hosts[i + 1]);
  }

  /** `updated` is reported exactly when HEAD ends on a new commit that passed validation; if git answers and the
      process lives, every other status leaves HEAD alone but a rollback whose reset was refused. */
  lemma StatusTellsTheTruth(dag: Dag, base: string, waitS: int, h: Host, n: Night, r: Result, after: Host)
    requires Acyclic(dag) && Step(dag, base, waitS, h, n, r, after)
    ensures r.status == Updated ==> after.head != h.head && after.head == n.origin && n.post.Passed?
    ensures Answers(n) && r.status != Killed ==>
              (r.status == Updated <==>
                 after.head != h.head && n.post.Passed? && (n.baseline.Passed? ==> n.post.jobs >= n.baseline.jobs))
    ensures Answers(n) && r.status != Killed && r.status != Updated ==>
              (after.head != h.head <==> r.status == RolledBack && n.resetRefused)
    ensures Answers(n) ==> !r.thirdSha
    ensures r.status != Updated && after.head != h.head <==>
            || (Undoes(dag, base, waitS, h, n) && n.resetRefused)
            || (Attempted(base, waitS, h, n) && Lands(dag, h, n) && (n.kill.AfterMerge? || (r.status == Refused && !Answers(n))))
    ensures ExitCode(r) == 0 ==> after.head == h.head || r.status == Updated
  {
  }

  /** A free lock at one of the tries: one at once, and unless it is a dry run one more for every five seconds of wait. */
  ghost predicate FreeInTime(n: Night, waitS: int) {
    exists i: nat :: !n.locked(i) && (i == 0 || (!n.dryRun && 5 * i <= waitS))
  }

  lemma FreeMeans(n: Night, waitS: int)
    ensures LockFree(n, waitS) <==> FreeInTime(n, waitS)
  {
    if LockFree(n, waitS) {
      var i :| 0 <= i <= Polls(if n.dryRun then 0 else waitS) && !n.locked(i);
    }
    if i: nat :| !n.locked(i) && (i == 0 || (!n.dryRun && 5 * i <= waitS)) {
      assert 0 <= i <= Polls(if n.dryRun then 0 else waitS);
    }
  }

  /** The host lets the command work: HEAD reads, on the base branch, clean, `uv` there, origin fetched and resolved. */
  predicate HostIsFine(base: string, n: Night) {
    n.headReads && n.branch == base && base !in {"", "HEAD"} && !n.dirty && n.uv && n.fetched && n.origin != ""
  }

  /** All that `updated` takes. */
  lemma UpdatedMeans(dag: Dag, base: string, waitS: int, h: Host, n: Night, r: Result, after: Host)
    requires Acyclic(dag) && Step(dag, base, waitS, h, n, r, after)
    ensures r.status == Updated <==>
              && FreeInTime(n, waitS) && !n.runOpen && HostIsFine(base, n) && !n.dryRun
              && n.origin != h.head && h.rejected != Some(n.origin) && dag.reaches(h.head, n.origin)
              && n.remoteNamed && n.checks.Some? && EvaluateCommitChecks(n.checks.value)
              && !n.mergeBlocked && !n.mergeTimedOut && n.headReadsAfter
              && n.post.Passed? && (n.baseline.Passed? ==> n.post.jobs >= n.baseline.jobs)
              && n.kill !in {BeforeMerge, AfterMerge}
  {
    FreeMeans(n, waitS);
  }

  /** A night that lands and is answered, on a commit that fails validation or drops a job, is rolled back: the commit is
      recorded, and HEAD is back unless the reset was refused. */
  lemma DroppedJobsRollBack(dag: Dag, base: string, waitS: int, h: Host, n: Night, r: Result, after: Host)
    requires Acyclic(dag) && Step(dag, base, waitS, h, n, r, after)
    requires FreeInTime(n, waitS) && !n.runOpen && HostIsFine(base, n) && !n.dryRun && n.kill.Lives?
    requires n.origin != h.head && h.rejected != Some(n.origin) && dag.reaches(h.head, n.origin)
    requires n.remoteNamed && n.checks.Some? && EvaluateCommitChecks(n.checks.value)
    requires !n.mergeBlocked && !n.mergeTimedOut && n.headReadsAfter
    requires n.post.Failed? || (n.baseline.Passed? && n.post.jobs < n.baseline.jobs)
    ensures r.status == RolledBack && after.rejected == Some(n.origin)
    ensures after.head == if n.resetRefused then n.origin else h.head
  {
    FreeMeans(n, waitS);
  }

  /** The quiet nights: nothing new, or nothing that may be installed now. */
  lemma QuietMeans(dag: Dag, base: string, waitS: int, h: Host, n: Night, r: Result, after: Host)
    requires Acyclic(dag) && Step(dag, base, waitS, h, n, r, after) && n.kill.Lives?
    ensures !FreeInTime(n, waitS) || n.runOpen ==> r.status == Deferred && after == h
    ensures FreeInTime(n, waitS) && !n.runOpen && !HostIsFine(base, n) ==> r.status == Refused && after == h
    ensures FreeInTime(n, waitS) && !n.runOpen && HostIsFine(base, n) && n.origin == h.head ==>
              after == h && r.status == if h.rejected == Some(n.origin) then Refused else UpToDate
    ensures FreeInTime(n, waitS) && !n.runOpen && HostIsFine(base, n) && n.origin != h.head
            && (h.rejected == Some(n.origin) || !n.remoteNamed || n.checks.None? || !EvaluateCommitChecks(n.checks.value) || n.dryRun) ==>
              r.status == Deferred && after == h
  {
    FreeMeans(n, waitS);
  }

  /** An attempted merge that cannot move HEAD: nothing to do when HEAD has the commit already, refused when the two have
      parted or git will not. */
  lemma NoMergeMeans(dag: Dag, base: string, waitS: int, h: Host, n: Night, r: Result, after: Host)
    requires Acyclic(dag) && Step(dag, base, waitS, h, n, r, after) && n.kill.Lives?
    requires FreeInTime(n, waitS) && !n.runOpen && HostIsFine(base, n) && !n.dryRun
    requires n.origin != h.head && h.rejected != Some(n.origin)
    requires n.remoteNamed && n.checks.Some? && EvaluateCommitChecks(n.checks.value) && !n.mergeTimedOut && n.headReadsAfter
    ensures dag.reaches(n.origin, h.head) ==> r.status == UpToDate && after == h
    ensures !dag.reaches(n.origin, h.head) && (!dag.reaches(h.head, n.origin) || n.mergeBlocked) ==> r.status == Refused && after == h
  {
    FreeMeans(n, waitS);
  }

  /** The nights that are heard of: those that changed or refused something, and a lock held all the time. */
  lemma LoudNights(dag: Dag, base: string, waitS: int, h: Host, n: Night, r: Result, after: Host)
    requires Step(dag, base, waitS, h, n, r, after) && n.kill.Lives?
    ensures r.notified <==> r.status == Updated || r.status == RolledBack || r.status == Refused || (!FreeInTime(n, waitS) && !n.dryRun)
  {
    FreeMeans(n, waitS);
  }

  lemma {:induction false} HeadNeverGoesBack(dag: Dag, base: string, waitS: int, log: Log, i: nat, j: nat)
    requires Acyclic(dag) && Nightly(dag, base, waitS, log) && i <= j < |log.hosts|
    ensures dag.reaches(log.hosts[i].head, log.hosts[j].head)
    decreases j - i
  {
    if i < j {
      HeadNeverGoesBack(dag, base, waitS, log, i, j - 1);
      assert Step(dag, base, waitS, log.hosts[j - 1], log.nights[j - 1], log.results[j - 1], log.hosts[j]);
      assert dag.reaches(log.hosts[j - 1].head, log.hosts[j].head);
    }
  }

  /** The last of the first `j` nights that moved HEAD. */
  function LastMove(log: Log, j: nat): (last: Option<nat>)
    requires j < |log.hosts|
    ensures last.Some? ==> last.value < j
  {
    if j == 0 then None
    else if log.hosts[j].head != log.hosts[j - 1].head then Some(j - 1)
    else LastMove(log, j - 1)
  }

  lemma {:induction false} StandsOnLastMove(dag: Dag, base: string, waitS: int, log: Log, j: nat)
    requires Acyclic(dag) && Nightly(dag, base, waitS, log) && j < |log.hosts|
    ensures var last := LastMove(log, j);
            if last.None? then log.hosts[j].head == log.hosts[0].head
            else last.value < j && Moved(dag, base, waitS, log, last.value) && log.hosts[last.value + 1].head == log.hosts[j].head
  {
    if j > 0 {
      assert Step(dag, base, waitS, log.hosts[j - 1], log.nights[j - 1], log.results[j - 1], log.hosts[j]);
      StandsOnLastMove(dag, base, waitS, log, j - 1);
    }
  }

  /** Night `k` moved HEAD onto its origin. */
  ghost predicate Moved(dag: Dag, base: string, waitS: int, log: Log, k: nat)
    requires k < |log.nights| == |log.hosts| - 1
  {
    && log.hosts[k + 1].head == log.nights[k].origin != log.hosts[k].head && dag.reaches(log.hosts[k].head, log.nights[k].origin)
    && Attempted(base, waitS, log.hosts[k], log.nights[k]) && Lands(dag, log.hosts[k], log.nights[k])
  }

  /** Night `k` installed what the host runs after night `j - 1`, and said so: it was green, and it validated. */
  predicate Vouches(log: Log, k: nat, j: nat)
    requires k < j < |log.hosts| == |log.nights| + 1 && |log.results| == |log.nights|
  {
    var n := log.nights[k];
    && log.results[k].status == Updated && n.origin == log.hosts[j].head && Green(n)
    && n.post.Passed? && (n.baseline.Passed? ==> n.post.jobs >= n.baseline.jobs)
  }

  /** Only the last move can vouch for the commit it left: HEAD does not come back to an earlier one. */
  lemma OnlyTheLastMoveVouches(dag: Dag, base: string, waitS: int, log: Log, k: nat, j: nat)
    requires Acyclic(dag) && Nightly(dag, base, waitS, log) && k < j < |log.hosts| && Vouches(log, k, j)
    ensures LastMove(log, j) == Some(k)
  {
    StandsOnLastMove(dag, base, waitS, log, j);
    assert Step(dag, base, waitS, log.hosts[k], log.nights[k], log.results[k], log.hosts[k + 1]);
    SameHeadBetween(dag, base, waitS, log, k + 1, j);
    LastMoveBefore(log, k + 1, j);
  }

  /** If HEAD is the same on two days, it was so all along. */
  lemma {:induction false} SameHeadBetween(dag: Dag, base: string, waitS: int, log: Log, i: nat, j: nat)
    requires Acyclic(dag) && Nightly(dag, base, waitS, log) && i <= j < |log.hosts| && log.hosts[i].head == log.hosts[j].head
    ensures forall q :: i <= q <= j ==> log.hosts[q].head == log.hosts[i].head
  {
    forall q | i <= q <= j ensures log.hosts[q].head == log.hosts[i].head {
      HeadNeverGoesBack(dag, base, waitS, log, i, q);
      HeadNeverGoesBack(dag, base, waitS, log, q, j);
    }
  }

  lemma {:induction false} LastMoveBefore(log: Log, i: nat, j: nat)
    requires 0 < i <= j < |log.hosts| && (forall q :: i <= q <= j ==> log.hosts[q].head == log.hosts[i].head)
    requires log.hosts[i].head != log.hosts[i - 1].head
    ensures LastMove(log, j) == Some(i - 1)
    decreases j
  {
    if i < j {
      assert log.hosts[j].head == log.hosts[i].head && log.hosts[j - 1].head == log.hosts[i].head;
      LastMoveBefore(log, i, j - 1);
    }
  }

  /** What the host runs after any number of nights is what it ran at the start, or what the last moving night put
      there: a descendant that CI accepted. Some night validated it and reported it installed exactly when that night
      was answered, lived past its merge, and the validation passed. */
  lemma HeadIsValidated(dag: Dag, base: string, waitS: int, log: Log, j: nat)
    requires Acyclic(dag) && Nightly(dag, base, waitS, log) && j < |log.hosts|
    ensures var last := LastMove(log, j);
            if last.None? then log.hosts[j].head == log.hosts[0].head
            else
              var n := log.nights[last.value];
              && last.value < j && log.hosts[j].head == n.origin != log.hosts[last.value].head && Green(n)
              && ((exists k :: 0 <= k < j && Vouches(log, k, j)) <==>
                    && Answers(n) && !n.kill.AfterMerge?
                    && n.post.Passed? && (n.baseline.Passed? ==> n.post.jobs >= n.baseline.jobs))
  {
    var last := LastMove(log, j);
    StandsOnLastMove(dag, base, waitS, log, j);
    if last.Some? {
      var k := last.value;
      assert Step(dag, base, waitS, log.hosts[k], log.nights[k], log.results[k], log.hosts[k + 1]);
      forall q | 0 <= q < j && Vouches(log, q, j) ensures q == k {
        OnlyTheLastMoveVouches(dag, base, waitS, log, q, j);
      }
      assert Vouches(log, k, j) <==> Answers(log.nights[k]) && !log.nights[k].kill.AfterMerge? && Validated(log.nights[k]);
    }
  }

  /** A run killed between its merge and its verdict leaves a commit that nobody validated and nobody rejected, and the
      next night calls it up to date. */
  lemma KilledAfterMergeReadsUpToDate(dag: Dag, base: string, waitS: int, h: Host, n: Night, r: Result, mid: Host,
                                      next: Night, r': Result, after: Host)
    requires Acyclic(dag) && Step(dag, base, waitS, h, n, r, mid) && Step(dag, base, waitS, mid, next, r', after)
    requires n.kill.AfterMerge? && Attempted(base, waitS, h, n) && Lands(dag, h, n)
    requires next.kill.Lives? && LockFree(next, waitS) && !next.runOpen && Workable(base, next) && next.origin == n.origin
    ensures r.status == Killed && r'.status == UpToDate && !r'.notified
    ensures after == mid == Host(n.origin, h.rejected)
  {
  }

  /** While origin stays on the rejected commit, no night moves HEAD or calls the host up to date or updated. */
  lemma {:induction false} RejectedCommitIsNotRetried(dag: Dag, base: string, waitS: int, log: Log, i: nat, j: nat)
    requires Acyclic(dag) && Nightly(dag, base, waitS, log) && i <= j < |log.nights|
    requires forall k :: i <= k <= j ==> log.hosts[i].rejected == Some(log.nights[k].origin)
    ensures log.hosts[j + 1] == log.hosts[i]
    ensures log.results[j].status in {Deferred, Refused, Killed}
    decreases j - i
  {
    if i < j {
      RejectedCommitIsNotRetried(dag, base, waitS, log, i, j - 1);
    }
    assert Step(dag, base, waitS, log.hosts[j], log.nights[j], log.results[j], log.hosts[j + 1]);
  }

  /** The host runs a commit recorded as rejected only when some night's `reset --keep` was refused. */
  lemma {:induction false} OnRejectedOnlyIfResetRefused(dag: Dag, base: string, waitS: int, log: Log, j: nat)
    requires Acyclic(dag) && Nightly(dag, base, waitS, log) && j < |log.hosts|
    requires log.hosts[0].rejected != Some(log.hosts[0].head)
    ensures log.hosts[j].rejected == Some(log.hosts[j].head) ==>
            exists k :: 0 <= k < j && Undoes(dag, base, waitS, log.hosts[k], log.nights[k]) && log.nights[k].resetRefused
                        && log.nights[k].origin == log.hosts[j].head
  {
    if j > 0 {
      OnRejectedOnlyIfResetRefused(dag, base, waitS, log, j - 1);
      assert Step(dag, base, waitS, log.hosts[j - 1], log.nights[j - 1], log.results[j - 1], log.hosts[j]);
    }
  }

  /** A night on a workable host whose origin is `c`, green in CI, and failing the host's validation. */
  ghost predicate BadNight(dag: Dag, base: string, waitS: int, h: Host, n: Night) {
    && LockFree(n, waitS) && !n.runOpen && Workable(base, n) && Green(n) && !n.dryRun && n.kill.Lives?
    && Lands(dag, h, n) && Answers(n) && n.post.Failed? && !n.resetRefused
  }

  /** A bad commit that CI likes is rolled back again on a later night exactly when another one was rejected in
      between: only the last rejected commit is remembered. */
  lemma OnlyTheLastRejectionIsRemembered(dag: Dag, base: string, waitS: int, h: Host, n: Night, r: Result, after: Host)
    requires Acyclic(dag) && BadNight(dag, base, waitS, h, n) && Step(dag, base, waitS, h, n, r, after)
    ensures r.status == RolledBack <==> h.rejected != Some(n.origin)
    ensures r.status == RolledBack ==> after == Host(h.head, Some(n.origin))
    ensures r.status != RolledBack ==> after == h && r.status == Deferred
  {
  }

  /** Three nights with origin at a, b and a again: `a` is merged, fails and is rolled back twice. */
  lemma SameCommitRejectedTwice(dag: Dag, base: string, waitS: int, log: Log)
    requires Acyclic(dag) && Nightly(dag, base, waitS, log) && |log.nights| == 3 && log.hosts[0].rejected == None
    requires log.nights[0].origin == log.nights[2].origin != log.nights[1].origin
    requires forall i :: 0 <= i < 3 ==> BadNight(dag, base, waitS, log.hosts[0], log.nights[i])
    ensures forall i :: 0 <= i < 3 ==> log.results[i].status == RolledBack
  {
    OnlyTheLastRejectionIsRemembered(dag, base, waitS, log.hosts[0], log.nights[0], log.results[0], log.hosts[1]);
    OnlyTheLastRejectionIsRemembered(dag, base, waitS, log.hosts[1], log.nights[1], log.results[1], log.hosts[2]);
    OnlyTheLastRejectionIsRemembered(dag, base, waitS, log.hosts[2], log.nights[2], log.results[2], log.hosts[3]);
  }

  // -- such nights ------------------------------------------------------------------------------

  /** Everything descends from "0", nothing else from anything. */
  const FAN := Dag((x, y) => x == y || x == "0")

  /** An ordinary night that meets a bad commit CI likes. */
  function BadNightAt(origin: Commit): Night {
    Night(i => false, false, false, true, "main", false, true, true, origin, true,
          Some([CHECK]), Failed, false, false, false, true, Failed, false, Lives)
  }

  const CHECK := Check(None, Some("SUCCESS"), None)

  lemma CheckIsGreen()
    ensures EvaluateCommitChecks([CHECK])
  {
    AlreadyNormal("SUCCESS");
  }

  lemma BadNightIsBad(origin: Commit, rejected: Option<Commit>)
    requires origin != "" && origin != "0"
    ensures Acyclic(FAN) && BadNight(FAN, "main", 0, Host("0", rejected), BadNightAt(origin))
  {
    CheckIsGreen();
    var n := BadNightAt(origin);
    assert !n.locked(0);
  }

  const REJECTS := Result(RolledBack, Some("0"), Some("a"), true, false)

  lemma BadNightSteps(origin: Commit, rejected: Option<Commit>)
    requires origin != "" && origin != "0" && rejected != Some(origin)
    ensures Step(FAN, "main", 0, Host("0", rejected), BadNightAt(origin), REJECTS.(target := Some(origin)), Host("0", Some(origin)))
  {
    BadNightIsBad(origin, rejected);
  }

  lemma ThreeNights(dag: Dag, base: string, waitS: int, hosts: seq<Host>, nights: seq<Night>, results: seq<Result>)
    requires |hosts| == 4 && |nights| == 3 && |results| == 3
    requires Step(dag, base, waitS, hosts[0], nights[0], results[0], hosts[1])
    requires Step(dag, base, waitS, hosts[1], nights[1], results[1], hosts[2])
    requires Step(dag, base, waitS, hosts[2], nights[2], results[2], hosts[3])
    ensures Nightly(dag, base, waitS, Log(hosts, nights, results))
  {
    var log := Log(hosts, nights, results);
    forall i | 0 <= i < 3 ensures Step(dag, base, waitS, log.hosts[i], log.nights[i], log.results[i], log.hosts[i + 1]) {
      assert i == 0 || i == 1 || i == 2;
    }
  }

  /** Nights at a, b and a: the same commit is installed, fails and is rolled back twice. */
  lemma RejectedTwice() returns (log: Log)
    ensures Nightly(FAN, "main", 0, log) && |log.nights| == 3
    ensures log.nights[0].origin == "a" == log.nights[2].origin && log.nights[1].origin == "b"
    ensures forall i :: 0 <= i < 3 ==> log.results[i].status == RolledBack
  {
    BadNightSteps("a", None);
    BadNightSteps("b", Some("a"));
    BadNightSteps("a", Some("b"));
    var a, b := BadNightAt("a"), BadNightAt("b");
    var hosts := [Host("0", None), Host("0", Some("a")), Host("0", Some("b")), Host("0", Some("a"))];
    var results := [REJECTS, REJECTS.(target := Some("b")), REJECTS];
    ThreeNights(FAN, "main", 0, hosts, [a, b, a], results);
    log := Log(hosts, [a, b, a], results);
  }
}
