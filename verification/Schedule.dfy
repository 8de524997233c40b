/** What is due, and what was missed (`schedule.py`, `digest.missed_runs`). */
module Schedule {
  import opened Common
  import opened History

  /** A cron iterator and the local wall clock, which repeats values when clocks are set back. */
  datatype Cron = Cron(next: int -> int, wall: int -> int)

  /** `get_next`: the first firing strictly after a time. */
  ghost predicate Croniter(c: Cron) {
    && (forall t :: t < c.next(t))
    && (forall t, u :: t <= u < c.next(t) ==> c.next(u) == c.next(t))
  }

  predicate Fires(c: Cron, t: int) {
    c.next(t - 1) == t
  }

  /** The loop of `occurrences_since` from position `t`, with the local times seen so far. */
  function OccurrencesFrom(c: Cron, t: int, now: int, seen: set<int>): seq<int>
    requires Croniter(c)
    decreases now - t
  {
    var next := c.next(t);
    if next > now then []
    else if c.wall(next) in seen then OccurrencesFrom(c, next, now, seen)
    else [next] + OccurrencesFrom(c, next, now, seen + {c.wall(next)})
  }

  function Occurrences(c: Cron, since: int, now: int): seq<int>
    requires Croniter(c)
  {
    OccurrencesFrom(c, since, now, {})
  }

  method OccurrencesSince(c: Cron, since: int, now: int) returns (occurrences: seq<int>)
    requires Croniter(c)
    ensures occurrences == Occurrences(c, since, now)
  {
    occurrences := [];
    var seen: set<int> := {};
    var at := since;
    while true
      invariant occurrences + OccurrencesFrom(c, at, now, seen) == Occurrences(c, since, now)
      decreases now - at
    {
      var next := c.next(at);
      at := next;
      if next > now {
        break;
      }
      if c.wall(next) in seen {
        continue;
      }
      assert occurrences + ([next] + OccurrencesFrom(c, next, now, seen + {c.wall(next)}))
          == occurrences + [next] + OccurrencesFrom(c, next, now, seen + {c.wall(next)});
      seen := seen + {c.wall(next)};
      occurrences := occurrences + [next];
    }
  }

  /** A firing in the window whose local time no earlier firing of the window shows. */
  ghost predicate FirstAtItsWall(c: Cron, since: int, now: int, x: int) {
    since < x <= now && Fires(c, x) && (forall u :: since < u < x && Fires(c, u) ==> c.wall(u) != c.wall(x))
  }

  lemma NextFires(c: Cron, t: int)
    requires Croniter(c)
    ensures Fires(c, c.next(t)) && forall u :: t < u < c.next(t) ==> !Fires(c, u)
  {
    forall u | t < u < c.next(t) ensures !Fires(c, u) {
      assert t <= u - 1 < c.next(t);
    }
    assert t <= c.next(t) - 1 < c.next(t);
  }

  lemma {:induction false} OccurrencesFromExact(c: Cron, t: int, now: int, seen: set<int>, x: int)
    requires Croniter(c)
    ensures x in OccurrencesFrom(c, t, now, seen) <==> FirstAtItsWall(c, t, now, x) && c.wall(x) !in seen
    decreases now - t
  {
    var next := c.next(t);
    NextFires(c, t);
    if next <= now {
      var more := if c.wall(next) in seen then seen else seen + {c.wall(next)};
      OccurrencesFromExact(c, next, now, more, x);
      assert x <= next ==> (FirstAtItsWall(c, t, now, x) <==> x == next);
      assert x > next ==> (FirstAtItsWall(c, t, now, x) <==> FirstAtItsWall(c, next, now, x) && c.wall(next) != c.wall(x));
    } else {
      assert t < x <= now ==> !Fires(c, x);
    }
  }

  /** The window `(since, now]` holds exactly the firings in it, repeated local times kept once, the earliest. */
  lemma OccurrencesExact(c: Cron, since: int, now: int, x: int)
    requires Croniter(c)
    ensures x in Occurrences(c, since, now) <==> FirstAtItsWall(c, since, now, x)
  {
    OccurrencesFromExact(c, since, now, {}, x);
  }

  ghost predicate Increasing(s: seq<int>) {
    forall i, j :: 0 <= i < j < |s| ==> s[i] < s[j]
  }

  lemma {:induction false} OccurrencesIncrease(c: Cron, t: int, now: int, seen: set<int>)
    requires Croniter(c)
    ensures Increasing(OccurrencesFrom(c, t, now, seen))
    ensures forall x :: x in OccurrencesFrom(c, t, now, seen) ==> t < x <= now
    decreases now - t
  {
    var next := c.next(t);
    if next <= now {
      var more := if c.wall(next) in seen then seen else seen + {c.wall(next)};
      OccurrencesIncrease(c, next, now, more);
      var rest := OccurrencesFrom(c, next, now, more);
      assert forall i :: 0 <= i < |rest| ==> rest[i] in rest;
    }
  }

  /** Windows with the same start only ever grow at the end. */
  lemma {:induction false} OccurrencesPrefixMonotone(c: Cron, t: int, now: int, later: int, seen: set<int>)
    requires Croniter(c) && now <= later
    ensures OccurrencesFrom(c, t, now, seen) <= OccurrencesFrom(c, t, later, seen)
    decreases now - t
  {
    var next := c.next(t);
    if next <= now {
      OccurrencesPrefixMonotone(c, next, now, later, if c.wall(next) in seen then seen else seen + {c.wall(next)});
    }
  }

  // -- the decision ------------------------------------------------------------------------

  datatype ScheduleResult =
    | NotDue
    | Due(run: bool, occurrence: int, late: int, skipped: nat, skippedFirst: Option<int>, skippedLast: Option<int>)

  const MINUTE := 60 * MICROS

  function Since(last: Option<Record>, registeredAt: int): int {
    if last.Some? then last.value.ts else registeredAt
  }

  /** `decide`: RUN (`run`) or MISSED the latest occurrence, the earlier ones collapsed. */
  function Decide(c: Cron, catchUpMinutes: int, now: int, last: Option<Record>, registeredAt: int): ScheduleResult
    requires Croniter(c)
  {
    var occurrences := Occurrences(c, Since(last, registeredAt), now);
    if occurrences == [] then NotDue
    else
      var latest := occurrences[|occurrences| - 1];
      var earlier := occurrences[..|occurrences| - 1];
      Due(now - latest <= catchUpMinutes * MINUTE, latest, now - latest, |earlier|,
          if earlier == [] then None else Some(earlier[0]),
          if earlier == [] then None else Some(earlier[|earlier| - 1]))
  }

  lemma DecideOverWindow(c: Cron, catchUpMinutes: int, now: int, last: Option<Record>, registeredAt: int, since: int)
    requires Croniter(c) && since == Since(last, registeredAt)
    ensures var d := Decide(c, catchUpMinutes, now, last, registeredAt);
            && (d.NotDue? <==> forall t :: since < t <= now ==> !Fires(c, t))
            && (d.Due? ==>
                  && FirstAtItsWall(c, since, now, d.occurrence)
                  && (forall t :: FirstAtItsWall(c, since, now, t) ==> t <= d.occurrence))
  {
    var occ := Occurrences(c, since, now);
    OccurrencesIncrease(c, since, now, {});
    NextFires(c, since);
    forall t ensures t in occ <==> FirstAtItsWall(c, since, now, t) {
      OccurrencesExact(c, since, now, t);
    }
    if c.next(since) <= now {
      assert occ[0] == c.next(since);
    } else {
      assert forall t :: since < t <= now ==> !Fires(c, t);
    }
  }

  lemma DecideInTime(c: Cron, catchUpMinutes: int, now: int, last: Option<Record>, registeredAt: int)
    requires Croniter(c)
    ensures var d := Decide(c, catchUpMinutes, now, last, registeredAt);
            d.Due? ==> d.late == now - d.occurrence && (d.run <==> now <= d.occurrence + catchUpMinutes * 60 * 1_000_000)
  {
  }

  /** Nothing is due exactly when the cron did not fire since the last scheduled end; what is due is the last occurrence of
      the window, run if it is still within the grace. */
  lemma DecideAccounts(c: Cron, catchUpMinutes: int, now: int, last: Option<Record>, registeredAt: int)
    requires Croniter(c)
    ensures var since := if last.Some? then last.value.ts else registeredAt;
            var d := Decide(c, catchUpMinutes, now, last, registeredAt);
            && (d.NotDue? <==> forall t :: since < t <= now ==> !Fires(c, t))
            && (d.Due? ==>
                  && FirstAtItsWall(c, since, now, d.occurrence)
                  && (forall t :: FirstAtItsWall(c, since, now, t) ==> t <= d.occurrence)
                  && d.late == now - d.occurrence
                  && (d.run <==> now <= d.occurrence + catchUpMinutes * 60 * 1_000_000))
  {
    DecideOverWindow(c, catchUpMinutes, now, last, registeredAt, if last.Some? then last.value.ts else registeredAt);
    DecideInTime(c, catchUpMinutes, now, last, registeredAt);
  }

  /** The skipped ones are all the others: from the first firing of the window to the last occurrence before the one
      acted on. */
  lemma SkippedAreAllOthers(c: Cron, catchUpMinutes: int, now: int, last: Option<Record>, registeredAt: int)
    requires Croniter(c) && Decide(c, catchUpMinutes, now, last, registeredAt).Due?
    ensures var since := Since(last, registeredAt);
            var d := Decide(c, catchUpMinutes, now, last, registeredAt);
            && 1 + d.skipped == |Occurrences(c, since, now)|
            && (d.skippedFirst.Some? <==> d.skipped > 0) && (d.skippedLast.Some? <==> d.skipped > 0)
            && (d.skipped > 0 ==>
                  && d.skippedFirst.value == c.next(since)
                  && FirstAtItsWall(c, since, now, d.skippedLast.value) && d.skippedLast.value < d.occurrence
                  && forall t :: d.skippedLast.value < t < d.occurrence ==> !FirstAtItsWall(c, since, now, t))
  {
    var since := Since(last, registeredAt);
    var occ := Occurrences(c, since, now);
    OccurrencesIncrease(c, since, now, {});
    if |occ| > 1 {
      OccurrencesExact(c, since, now, occ[|occ| - 2]);
      forall t | occ[|occ| - 2] < t < occ[|occ| - 1] ensures !FirstAtItsWall(c, since, now, t) {
        OccurrencesExact(c, since, now, t);
      }
    }
  }

  /** What a tick at `now` decides from the job's records `rs`; an unseen job counts from this very tick. */
  function DecideOn(c: Cron, catchUpMinutes: int, now: int, rs: seq<Record>): ScheduleResult
    requires Croniter(c)
  {
    Decide(c, catchUpMinutes, now, LastCounting(rs), if FirstSeenAt(rs).Some? then FirstSeenAt(rs).value else now)
  }

  lemma {:induction false} WithoutOfJob(log: seq<Record>, job: string, id: string)
    ensures OfJob(Without(log, id), job) == Without(OfJob(log, job), id)
  {
    if log != [] {
      var n := |log| - 1;
      WithoutOfJob(log[..n], job, id);
      var w, o := Without(log, id), OfJob(log, job);
      if log[n].runId == Some(id) {
        assert w == Without(log[..n], id);
      } else {
        assert w[..|w| - 1] == Without(log[..n], id);
      }
      if log[n].job == job {
        assert o[..|o| - 1] == OfJob(log[..n], job);
      } else {
        assert o == OfJob(log[..n], job);
      }
    }
  }

  lemma {:induction false} WithoutKeepsFirst(rs: seq<Record>, id: string)
    requires rs != [] && rs[0].runId != Some(id)
    ensures Without(rs, id) != [] && Without(rs, id)[0] == rs[0]
  {
    if |rs| > 1 {
      WithoutKeepsFirst(rs[..|rs| - 1], id);
    }
  }

  /** A manual, request or event run never moves the schedule: whatever the log interleaves it with, every decision
      for its job is as if the run had never been recorded. */
  lemma OffScheduleRunsDoNotMoveTheSchedule(c: Cron, catchUpMinutes: int, now: int, log: seq<Record>, job: string, id: string)
    requires Croniter(c) && WhollyOffSchedule(OfJob(log, job), id)
    requires OfJob(log, job) != [] && OfJob(log, job)[0].runId != Some(id)
    ensures DecideOn(c, catchUpMinutes, now, OfJob(Without(log, id), job)) == DecideOn(c, catchUpMinutes, now, OfJob(log, job))
  {
    WithoutOfJob(log, job, id);
    WithoutKeepsFirst(OfJob(log, job), id);
    OffScheduleRunsAreInvisible(OfJob(log, job), id);
  }

  // -- over all ticks -------------------------------------------------------------------------

  /** A tick and the job's records it read. */
  datatype Tick = Tick(now: int, rs: seq<Record>)

  /** Between two reads of the log, a terminal record that counts was appended, none stamped before `from`. */
  ghost predicate Answered(before: seq<Record>, after: seq<Record>, from: int) {
    && before <= after
    && (exists k :: |before| <= k < |after| && Counts(after[..k], after[k]))
    && (forall k :: |before| <= k < |after| && Counts(after[..k], after[k]) ==> from <= after[k].ts)
  }

  lemma {:induction false} LastCountingAfter(rs: seq<Record>, from: nat, bound: int)
    requires exists k :: from <= k < |rs| && Counts(rs[..k], rs[k])
    requires forall k :: from <= k < |rs| && Counts(rs[..k], rs[k]) ==> bound <= rs[k].ts
    ensures LastCounting(rs).Some? && bound <= LastCounting(rs).value.ts
  {
    var n := |rs| - 1;
    if !Counts(rs[..n], rs[n]) {
      forall k | from <= k < n ensures rs[..n][..k] == rs[..k] && rs[..n][k] == rs[k] { }
      var k :| from <= k < |rs| && Counts(rs[..k], rs[k]);
      assert k < n && Counts(rs[..n][..k], rs[..n][k]);
      LastCountingAfter(rs[..n], from, bound);
    }
  }

  function DecideAt(c: Cron, catchUpMinutes: int, tick: Tick): ScheduleResult
    requires Croniter(c)
  {
    DecideOn(c, catchUpMinutes, tick.now, tick.rs)
  }

  /** Whatever was due was answered before the next reading of the log. */
  ghost predicate EveryDueIsAnswered(c: Cron, catchUpMinutes: int, ticks: seq<Tick>)
    requires Croniter(c)
  {
    forall i, j :: 0 <= i < j < |ticks| && DecideAt(c, catchUpMinutes, ticks[i]).Due? ==>
      Answered(ticks[i].rs, ticks[j].rs, ticks[i].now)
  }

  /** No occurrence is acted on twice, and no window overlaps an earlier one. */
  lemma OccurrencesActedOnIncrease(c: Cron, catchUpMinutes: int, ticks: seq<Tick>, i: nat, j: nat)
    requires Croniter(c) && EveryDueIsAnswered(c, catchUpMinutes, ticks) && i < j < |ticks|
    requires DecideAt(c, catchUpMinutes, ticks[i]).Due? && DecideAt(c, catchUpMinutes, ticks[j]).Due?
    ensures DecideAt(c, catchUpMinutes, ticks[i]).occurrence < DecideAt(c, catchUpMinutes, ticks[j]).occurrence
    ensures ticks[i].now <= Since(LastCounting(ticks[j].rs), ticks[j].now)
    ensures forall t :: t in Occurrences(c, Since(LastCounting(ticks[j].rs), ticks[j].now), ticks[j].now) ==> ticks[i].now < t
  {
    LastCountingAfter(ticks[j].rs, |ticks[i].rs|, ticks[i].now);
    var since := LastCounting(ticks[j].rs).value.ts;
    DueInWindow(c, catchUpMinutes, ticks[i]);
    DueInWindow(c, catchUpMinutes, ticks[j]);
    OccurrencesIncrease(c, since, ticks[j].now, {});
  }

  lemma DueInWindow(c: Cron, catchUpMinutes: int, tick: Tick)
    requires Croniter(c) && DecideAt(c, catchUpMinutes, tick).Due?
    ensures DecideAt(c, catchUpMinutes, tick).occurrence <= tick.now
    ensures LastCounting(tick.rs).Some? ==> LastCounting(tick.rs).value.ts < DecideAt(c, catchUpMinutes, tick).occurrence
  {
    var first := if FirstSeenAt(tick.rs).Some? then FirstSeenAt(tick.rs).value else tick.now;
    var occurrences := Occurrences(c, Since(LastCounting(tick.rs), first), tick.now);
    OccurrencesIncrease(c, Since(LastCounting(tick.rs), first), tick.now, {});
    assert occurrences[|occurrences| - 1] in occurrences;
  }

  /** A cron firing at 1, 3 and every later instant; the clock set back at 3 shows the time of 1 again. */
  const FALL_BACK: Cron := Cron((t: int) => if t < 1 then 1 else if t < 3 then 3 else t + 1, (t: int) => if t == 3 then 1 else t)

  /** The dedupe of repeated local times is per window: a window that starts between the two instants acts on the
      second one too. */
  lemma RepeatedWallAcrossWindows()
    ensures Croniter(FALL_BACK)
    ensures Occurrences(FALL_BACK, 0, 3) == Occurrences(FALL_BACK, 0, 2) == [1] && Occurrences(FALL_BACK, 2, 3) == [3]
  {
    var c := FALL_BACK;
    assert OccurrencesFrom(c, 1, 3, {1}) == OccurrencesFrom(c, 3, 3, {1}) == [];
    assert OccurrencesFrom(c, 2, 3, {}) == [3] + OccurrencesFrom(c, 3, 3, {1});
  }

  // -- the morning digest ---------------------------------------------------------------------

  datatype Job = Job(name: string, enabled: bool, cron: Option<Cron>, catchUpMinutes: int, timeoutMs: int)

  datatype MissedRow = MissedRow(name: string, expected: int, lastState: Option<State>, lastTs: Option<int>, late: int)

  /** An enabled cron job that some tick has seen, is not running, and that `decide` would call MISSED now. */
  ghost predicate Flagged(job: Job, log: seq<Record>, now: int)
    requires job.cron.Some? ==> Croniter(job.cron.value)
  {
    var rs := OfJob(log, job.name);
    && job.enabled && job.cron.Some? && !InFlight(rs, job.timeoutMs, now) && rs != []
    && DecideOn(job.cron.value, job.catchUpMinutes, now, rs).Due?
    && !DecideOn(job.cron.value, job.catchUpMinutes, now, rs).run
  }

  ghost function RowsOf(jobs: seq<Job>, log: seq<Record>, now: int): seq<MissedRow>
    requires forall job :: job in jobs && job.cron.Some? ==> Croniter(job.cron.value)
  {
    if jobs == [] then []
    else
      var job := jobs[|jobs| - 1];
      var rs := OfJob(log, job.name);
      RowsOf(jobs[..|jobs| - 1], log, now)
      + if Flagged(job, log, now) then
          var d := DecideOn(job.cron.value, job.catchUpMinutes, now, rs);
          var last := LastCounting(rs);
          [MissedRow(job.name, d.occurrence,
                     if last.Some? then Some(last.value.state) else None, if last.Some? then Some(last.value.ts) else None,
                     d.late)]
        else []
  }

  /** `missed_runs`: one row per flagged job, in config order, naming the occurrence `decide` acts on. */
  method MissedRuns(jobs: seq<Job>, log: seq<Record>, now: int) returns (missed: seq<MissedRow>)
    requires forall job :: job in jobs && job.cron.Some? ==> Croniter(job.cron.value)
    ensures missed == RowsOf(jobs, log, now)
  {
    missed := [];
    for i := 0 to |jobs|
      invariant missed == RowsOf(jobs[..i], log, now)
    {
      assert jobs[..i + 1][..i] == jobs[..i];
      var job := jobs[i];
      var row := MissedRun(job, log, now);
      if row.Some? {
        missed := missed + [row.value];
      }
    }
    assert jobs[..|jobs|] == jobs;
  }

  /** One turn of the loop in `missed_runs`; None is each of its `continue`s. */
  method MissedRun(job: Job, log: seq<Record>, now: int) returns (row: Option<MissedRow>)
    requires job.cron.Some? ==> Croniter(job.cron.value)
    ensures (if row.Some? then [row.value] else []) == RowsOf([job], log, now)
  {
    assert [job][..0] == [];
    var rs := OfJob(log, job.name);
    if !job.enabled || job.cron.None? {
      return None;
    }
    var running := IsCurrentlyRunning(rs, job.timeoutMs, now);
    if running {
      return None;
    }
    var record := LastScheduledTerminalRun(rs);
    var since := if record.Some? then Some(record.value.ts) else FirstSeenAt(rs);
    if since.None? {
      return None;
    }
    var occurrences := OccurrencesSince(job.cron.value, since.value, now);
    if occurrences == [] {
      return None;
    }
    var expected := occurrences[|occurrences| - 1];
    var late := now - expected;
    if late <= job.catchUpMinutes * MINUTE {
      return None;
    }
    row := Some(MissedRow(job.name, expected,
                          if record.Some? then Some(record.value.state) else None,
                          if record.Some? then Some(record.value.ts) else None, late));
  }

  /** A row is there exactly for an enabled cron job that was seen, has no run in flight, and whose last occurrence since
      its last scheduled end, or since it was first seen, is past the minutes of grace; and it says so. */
  lemma RowMeans(job: Job, log: seq<Record>, now: int)
    requires job.cron.Some? ==> Croniter(job.cron.value)
    ensures RowsOf([job], log, now) != [] <==> job.enabled && job.cron.Some? && Overdue(job, job.cron.value, OfJob(log, job.name), now)
    ensures RowsOf([job], log, now) != [] ==>
              var row, rs := RowsOf([job], log, now)[0], OfJob(log, job.name);
              && row.name == job.name && row.late == now - row.expected
              && LastInWindow(job.cron.value, StartOf(rs), now, row.expected)
              && row.lastState == (if LastCounting(rs).Some? then Some(LastCounting(rs).value.state) else None)
              && row.lastTs == (if LastCounting(rs).Some? then Some(LastCounting(rs).value.ts) else None)
  {
    assert [job][..0] == [];
    var rs := OfJob(log, job.name);
    if job.cron.Some? && rs != [] {
      DecideMeans(job.cron.value, job.catchUpMinutes, now, rs);
    }
  }

  lemma DecideMeans(c: Cron, catchUpMinutes: int, now: int, rs: seq<Record>)
    requires Croniter(c) && rs != []
    ensures var d := DecideOn(c, catchUpMinutes, now, rs);
            && (d.Due? ==> LastInWindow(c, StartOf(rs), now, d.occurrence) && d.late == now - d.occurrence)
            && (d.Due? && !d.run <==> exists x :: LastInWindow(c, StartOf(rs), now, x) && now > x + catchUpMinutes * 60 * 1_000_000)
  {
    DecideAccounts(c, catchUpMinutes, now, LastCounting(rs), rs[0].ts);
    var d := DecideOn(c, catchUpMinutes, now, rs);
    forall x | LastInWindow(c, StartOf(rs), now, x) ensures d.Due? && x == d.occurrence {
      assert Fires(c, x);
    }
    if d.Due? {
      assert LastInWindow(c, StartOf(rs), now, d.occurrence);
      assert d.run <==> now <= d.occurrence + catchUpMinutes * 60 * 1_000_000;
    }
  }

  /** The last scheduled end, else the first record. */
  function StartOf(rs: seq<Record>): int
    requires rs != []
  {
    if LastCounting(rs).Some? then LastCounting(rs).value.ts else rs[0].ts
  }

  ghost predicate LastInWindow(c: Cron, since: int, now: int, x: int) {
    FirstAtItsWall(c, since, now, x) && forall t :: FirstAtItsWall(c, since, now, t) ==> t <= x
  }

  ghost predicate Overdue(job: Job, c: Cron, rs: seq<Record>, now: int) {
    && rs != [] && !InFlight(rs, job.timeoutMs, now)
    && exists x :: LastInWindow(c, StartOf(rs), now, x) && now > x + job.catchUpMinutes * 60 * 1_000_000
  }
}
