/** The ledger over many audit cycles: what survives any sequence of diff, fold, prune and hand-off. */
module AuditCycles {
  import opened Common
  import opened Sorting
  import opened Findings

  /** One audit cycle's inputs: the report, the caller's choices, and which findings a worker settled with.
      A dispatch that fails, or a crash before the hand-off is saved, is a cycle with `taken == []`. */
  datatype Cycle = Cycle(
    findings: seq<Finding>, stamp: string, run: string, queued: set<string>, dispatched: set<string>,
    taken: seq<string>, now: int, retentionDays: int)

  /** The part of `Folded` that a real diff determines. */
  function Refold(e: Option<Entry>, reported: Option<Finding>, queue: bool, dispatch: bool, stamp: string, run: string)
    : Option<Entry> {
    Folded(e, reported, e.Some? && e.value.state == Open && reported.None?, queue, dispatch, stamp, run)
  }

  ghost predicate IsRefold(before: map<string, Entry>, fs: seq<Finding>, queued: set<string>, dispatched: set<string>,
                           stamp: string, run: string, after: map<string, Entry>) {
    forall id {:trigger Get(after, id)} ::
      Get(after, id) == Refold(Get(before, id), Get(Current(fs), id), id in queued, id in dispatched, stamp, run)
  }

  /** One id through a whole cycle: fold, prune, hand off. */
  function Through(e: Option<Entry>, c: Cycle, id: string, epoch: string -> Option<int>): Option<Entry> {
    HandedOff(
      Pruned(Refold(e, Get(Current(c.findings), id), id in c.queued, id in c.dispatched, c.stamp, c.run),
             epoch, Cutoff(c.now, c.retentionDays)),
      id in c.taken)
  }

  ghost predicate CycleStep(epoch: string -> Option<int>, l: Ledger, c: Cycle, l': Ledger) {
    && l'.job == l.job && l'.version == l.version && l'.runs == l.runs + 1
    && forall id {:trigger Get(l'.entries, id)} :: Get(l'.entries, id) == Through(Get(l.entries, id), c, id, epoch)
  }

  lemma {:induction false} LastWithMember(fs: seq<Finding>, id: string)
    ensures LastWith(fs, id).Some? ==> LastWith(fs, id).value in fs && LastWith(fs, id).value.id == id
    ensures LastWith(fs, id).None? ==> forall f :: f in fs ==> f.id != id
  {
    if fs != [] {
      LastWithMember(fs[..|fs| - 1], id);
      assert fs == fs[..|fs| - 1] + [fs[|fs| - 1]];
    }
  }

  /** The three lists of a real diff hold each reported finding once, so the fold sees exactly the report. */
  lemma DiffCoversReport(fs: seq<Finding>, entries: map<string, Entry>, d: FindingDiff, id: string)
    requires IsDiff(fs, entries, d)
    ensures LastWith(d.newly + d.regressed + d.steady, id) == Get(Current(fs), id)
  {
    var all := d.newly + d.regressed + d.steady;
    LastWithMember(all, id);
    CurrentMembers(fs);
    assert forall f :: f in all <==> f in d.newly || f in d.regressed || f in d.steady;
    if id in Current(fs) {
      var f := Current(fs)[id];
      assert f in d.newly || f in d.regressed || f in d.steady;
    }
  }

  lemma FoldOfDiff(before: map<string, Entry>, fs: seq<Finding>, d: FindingDiff, queued: set<string>,
                   dispatched: set<string>, stamp: string, run: string, after: map<string, Entry>)
    requires IsDiff(fs, before, d) && IsFold(before, d, queued, dispatched, stamp, run, after)
    ensures IsRefold(before, fs, queued, dispatched, stamp, run, after)
  {
    forall id
      ensures Get(after, id) == Refold(Get(before, id), Get(Current(fs), id), id in queued, id in dispatched, stamp, run)
    {
      DiffCoversReport(fs, before, d, id);
    }
  }

  /** A cycle as the audit job runs it: diff, fold (saved before the dispatch), prune, then hand off. */
  method RunCycle(l: Ledger, c: Cycle, epoch: string -> Option<int>) returns (l': Ledger)
    ensures CycleStep(epoch, l, c, l')
  {
    var d := DiffFindings(c.findings, Some(l));
    var folded := ApplyDiff(l, d, c.stamp, c.run, c.queued, c.dispatched);
    FoldOfDiff(l.entries, c.findings, d, c.queued, c.dispatched, c.stamp, c.run, folded.entries);
    var pruned := PruneLedger(folded, epoch, c.now, c.retentionDays);
    l' := MarkHandedOff(pruned, c.taken);
  }

  ghost predicate AuditRun(epoch: string -> Option<int>, ls: seq<Ledger>, cs: seq<Cycle>) {
    && |ls| == |cs| + 1
    && forall i :: 0 <= i < |cs| ==> CycleStep(epoch, ls[i], cs[i], ls[i + 1])
  }

  predicate Reported(c: Cycle, id: string) {
    id in Current(c.findings)
  }

  predicate OwedAt(l: Ledger, c: Cycle, id: string) {
    Reported(c, id) && Owed(Get(l.entries, id), Current(c.findings)[id].severity)
  }

  predicate IsQueued(l: Ledger, id: string) {
    id in l.entries && l.entries[id].state == Open && l.entries[id].queued
  }

  // -- the debt ------------------------------------------------------------------

  ghost predicate QueuedOnlyOpen(l: Ledger) {
    forall id :: id in l.entries && l.entries[id].queued ==> l.entries[id].state == Open
  }

  lemma {:induction false} QueuedImpliesOpen(epoch: string -> Option<int>, ls: seq<Ledger>, cs: seq<Cycle>, i: nat)
    requires AuditRun(epoch, ls, cs) && i < |ls| && QueuedOnlyOpen(ls[0])
    ensures QueuedOnlyOpen(ls[i])
  {
    if i > 0 {
      QueuedImpliesOpen(epoch, ls, cs, i - 1);
      assert CycleStep(epoch, ls[i - 1], cs[i - 1], ls[i]);
      forall id | id in ls[i].entries && ls[i].entries[id].queued ensures ls[i].entries[id].state == Open {
        assert Get(ls[i].entries, id) == Through(Get(ls[i - 1].entries, id), cs[i - 1], id, epoch);
      }
    }
  }

  /** A queued finding stays queued while every cycle reports it and no worker takes it. */
  lemma {:induction false} StaysQueued(epoch: string -> Option<int>, ls: seq<Ledger>, cs: seq<Cycle>, id: string,
                                       i: nat, j: nat)
    requires AuditRun(epoch, ls, cs) && i <= j < |ls| && IsQueued(ls[i], id)
    requires forall m :: i <= m < j ==> Reported(cs[m], id) && id !in cs[m].taken
    ensures IsQueued(ls[j], id)
  {
    if i < j {
      StaysQueued(epoch, ls, cs, id, i, j - 1);
      assert CycleStep(epoch, ls[j - 1], cs[j - 1], ls[j]);
      assert Get(ls[j].entries, id) == Through(Get(ls[j - 1].entries, id), cs[j - 1], id, epoch);
    }
  }

  /** No debt is lost: a finding queued by cycle `i - 1` is in the dispatch pool of every later cycle that
      reports it, as long as it never left the report and nobody took it in between. */
  lemma DebtStaysInPool(epoch: string -> Option<int>, ls: seq<Ledger>, cs: seq<Cycle>, id: string, i: nat, j: nat,
                        d: FindingDiff)
    requires AuditRun(epoch, ls, cs) && i <= j < |cs| && IsQueued(ls[i], id)
    requires forall m :: i <= m < j ==> Reported(cs[m], id) && id !in cs[m].taken
    requires Reported(cs[j], id) && IsDiff(cs[j].findings, ls[j].entries, d)
    ensures Current(cs[j].findings)[id] in DispatchPool(d, Some(ls[j]))
  {
    StaysQueued(epoch, ls, cs, id, i, j);
    InPool(cs[j].findings, Some(ls[j]), d, id);
  }

  /** A new or regressed finding that the caller queues is queued after the cycle unless a worker took it. */
  lemma DebtIsTakenOn(epoch: string -> Option<int>, l: Ledger, c: Cycle, l': Ledger, id: string)
    requires CycleStep(epoch, l, c, l') && Reported(c, id) && id in c.queued
    ensures IsQueued(l', id) <==> id !in c.taken
  {
    assert Get(l'.entries, id) == Through(Get(l.entries, id), c, id, epoch);
  }

  /** The finding came back in cycle `m`: it rose above its open entry's severity, or it had left the report since `i` and
      reappeared, with no open entry left. */
  ghost predicate CameBack(ls: seq<Ledger>, cs: seq<Cycle>, id: string, i: nat, m: nat)
    requires |ls| == |cs| + 1 && m < |cs|
  {
    && Reported(cs[m], id)
    && var entries, now := ls[m].entries, Current(cs[m].findings)[id].severity;
       || (id in entries && entries[id].state == Open && Rises(entries[id].severity, now))
       || ((id !in entries || entries[id].state == Resolved) && exists k :: i <= k < m && !Reported(cs[k], id))
  }

  /** The callers' rule for `queued_ids`: only findings of the dispatch pool. */
  ghost predicate QueuesOnlyOwed(ls: seq<Ledger>, cs: seq<Cycle>) {
    |ls| == |cs| + 1 && forall m, id :: 0 <= m < |cs| && id in cs[m].queued ==> OwedAt(ls[m], cs[m], id)
  }

  lemma {:induction false} SettledUntilBack(epoch: string -> Option<int>, ls: seq<Ledger>, cs: seq<Cycle>,
                                            id: string, i: nat, j: nat)
    requires AuditRun(epoch, ls, cs) && QueuesOnlyOwed(ls, cs) && i <= j < |ls|
    requires id in ls[i].entries && ls[i].entries[id].state == Open && !ls[i].entries[id].queued
    requires forall m :: i <= m < j ==> !CameBack(ls, cs, id, i, m)
    ensures id in ls[j].entries ==> !ls[j].entries[id].queued
    ensures (forall m :: i <= m < j ==> Reported(cs[m], id)) ==> id in ls[j].entries && ls[j].entries[id].state == Open
    ensures (exists m :: i <= m < j && !Reported(cs[m], id)) ==> id !in ls[j].entries || ls[j].entries[id].state == Resolved
  {
    if i < j {
      SettledUntilBack(epoch, ls, cs, id, i, j - 1);
      assert CycleStep(epoch, ls[j - 1], cs[j - 1], ls[j]);
      assert Get(ls[j].entries, id) == Through(Get(ls[j - 1].entries, id), cs[j - 1], id, epoch);
      assert !CameBack(ls, cs, id, i, j - 1);
    }
  }

  /** Once handed off (open, not queued), a finding is in a later pool only if it came back in between. */
  lemma HandedOffReturnsOnlyByComingBack(epoch: string -> Option<int>, ls: seq<Ledger>, cs: seq<Cycle>, id: string,
                                         i: nat, j: nat, d: FindingDiff)
    requires AuditRun(epoch, ls, cs) && QueuesOnlyOwed(ls, cs) && i <= j < |cs|
    requires id in ls[i].entries && ls[i].entries[id].state == Open && !ls[i].entries[id].queued
    requires Reported(cs[j], id) && IsDiff(cs[j].findings, ls[j].entries, d)
    requires Current(cs[j].findings)[id] in DispatchPool(d, Some(ls[j]))
    ensures exists m :: i <= m <= j && CameBack(ls, cs, id, i, m)
  {
    InPool(cs[j].findings, Some(ls[j]), d, id);
    if forall m :: i <= m < j ==> !CameBack(ls, cs, id, i, m) {
      SettledUntilBack(epoch, ls, cs, id, i, j);
      assert CameBack(ls, cs, id, i, j);
    }
  }

  // -- what a cycle leaves of an entry ---------------------------------------------------

  /** A reported finding's entry is open, as reported, seen now; its history and its dispatch are kept or noted. */
  lemma ReportedEntryIsAsReported(e: Option<Entry>, f: Finding, queue: bool, dispatch: bool, stamp: string, run: string)
    ensures var after := Refold(e, Some(f), queue, dispatch, stamp, run);
            && after.Some? && after.value.state == Open && after.value.resolvedAt == None && after.value.lastSeen == stamp
            && after.value.kind == f.kind && after.value.location == f.location && after.value.severity == f.severity
            && after.value.firstSeen == (if e.Some? then e.value.firstSeen else stamp)
            && (dispatch ==> after.value.lastDispatchedRun == Some(run))
            && (!dispatch ==> after.value.lastDispatchedRun == if e.Some? then e.value.lastDispatchedRun else None)
            && (after.value.queued <==> queue || (e.Some? && e.value.state == Open && e.value.queued))
  {
  }

  /** An open entry no longer reported is resolved now and owed nothing; any other unreported entry is left alone. */
  lemma UnreportedEntryIsResolved(e: Option<Entry>, queue: bool, dispatch: bool, stamp: string, run: string)
    ensures Refold(e, None, queue, dispatch, stamp, run) ==
            if e.Some? && e.value.state == Open then Some(e.value.(state := Resolved, resolvedAt := Some(stamp), queued := false))
            else e
  {
  }

  // -- the attempt budget ------------------------------------------------------------

  /** Cycles in `[i, j)` that both reported and dispatched the finding. */
  function Spent(cs: seq<Cycle>, id: string, i: nat, j: nat): nat
    requires i <= j <= |cs|
  {
    if i == j then 0
    else Spent(cs, id, i, j - 1) + (if Reported(cs[j - 1], id) && id in cs[j - 1].dispatched then 1 else 0)
  }

  function AttemptsOf(e: Option<Entry>): int {
    if e.Some? then e.value.attempts else 0
  }

  lemma RefoldSpends(e: Option<Entry>, reported: Option<Finding>, queue: bool, dispatch: bool, stamp: string, run: string)
    ensures AttemptsOf(Refold(e, reported, queue, dispatch, stamp, run)) ==
            AttemptsOf(e) + (if reported.Some? && dispatch then 1 else 0)
    ensures Refold(e, reported, queue, dispatch, stamp, run).Some? <==> e.Some? || reported.Some?
    ensures e.Some? || reported.Some? ==>
      Refold(e, reported, queue, dispatch, stamp, run).value.firstSeen == if e.Some? then e.value.firstSeen else stamp
  {
  }

  lemma ThroughSpends(e: Option<Entry>, c: Cycle, id: string, epoch: string -> Option<int>)
    requires Through(e, c, id, epoch).Some?
    ensures AttemptsOf(Through(e, c, id, epoch)) ==
            AttemptsOf(e) + (if Reported(c, id) && id in c.dispatched then 1 else 0)
    ensures Through(e, c, id, epoch).value.firstSeen == if e.Some? then e.value.firstSeen else c.stamp
  {
    RefoldSpends(e, Get(Current(c.findings), id), id in c.queued, id in c.dispatched, c.stamp, c.run);
  }

  lemma StepSpends(epoch: string -> Option<int>, l: Ledger, c: Cycle, l': Ledger, id: string)
    requires CycleStep(epoch, l, c, l') && id in l'.entries
    ensures l'.entries[id].attempts ==
            AttemptsOf(Get(l.entries, id)) + (if Reported(c, id) && id in c.dispatched then 1 else 0)
    ensures l'.entries[id].firstSeen == if id in l.entries then l.entries[id].firstSeen else c.stamp
  {
    assert Get(l'.entries, id) == Through(Get(l.entries, id), c, id, epoch);
    ThroughSpends(Get(l.entries, id), c, id, epoch);
  }

  /** The finding has an entry in every ledger from `i` to `j`. */
  predicate Survives(ls: seq<Ledger>, id: string, i: nat, j: nat)
    requires j < |ls|
  {
    forall m :: i <= m <= j ==> id in ls[m].entries
  }

  /** While an entry survives, flapping or not, its attempts grow by exactly the dispatched reports and
      `first_seen` never moves. */
  lemma {:induction false} AttemptsCounted(epoch: string -> Option<int>, ls: seq<Ledger>, cs: seq<Cycle>, id: string,
                                           i: nat, j: nat)
    requires AuditRun(epoch, ls, cs) && i <= j < |ls| && Survives(ls, id, i, j)
    ensures ls[j].entries[id].attempts == ls[i].entries[id].attempts + Spent(cs, id, i, j)
    ensures ls[j].entries[id].firstSeen == ls[i].entries[id].firstSeen
  {
    if i < j {
      AttemptsCounted(epoch, ls, cs, id, i, j - 1);
      StepSpends(epoch, ls[j - 1], cs[j - 1], ls[j], id);
    }
  }

  /** From its creation in cycle `i` on, an entry's attempts are the dispatched reports since, no more. */
  lemma AttemptsSinceCreation(epoch: string -> Option<int>, ls: seq<Ledger>, cs: seq<Cycle>, id: string, i: nat, j: nat)
    requires AuditRun(epoch, ls, cs) && i < j < |ls|
    requires id !in ls[i].entries && Survives(ls, id, i + 1, j)
    ensures ls[j].entries[id].attempts == Spent(cs, id, i, j)
    ensures ls[j].entries[id].firstSeen == cs[i].stamp
  {
    StepSpends(epoch, ls[i], cs[i], ls[i + 1], id);
    AttemptsCounted(epoch, ls, cs, id, i + 1, j);
    SpentSplit(cs, id, i, j);
  }

  lemma {:induction false} SpentSplit(cs: seq<Cycle>, id: string, i: nat, j: nat)
    requires i < j <= |cs|
    ensures Spent(cs, id, i, j) == Spent(cs, id, i, i + 1) + Spent(cs, id, i + 1, j)
  {
    if i + 1 < j { SpentSplit(cs, id, i, j - 1); }
  }

  /** Attempts recorded under the given ids. */
  ghost function TotalAttempts(entries: map<string, Entry>, ids: set<string>): int {
    if ids == {} then 0
    else
      var id := Pick(ids);
      AttemptsOf(Get(entries, id)) + TotalAttempts(entries, ids - {id})
  }

  ghost function Pick(ids: set<string>): (id: string)
    requires ids != {}
    ensures id in ids
  {
    var id :| id in ids; id
  }

  /** The sum does not depend on the order of the picks. */
  lemma {:induction false} TotalWithout(entries: map<string, Entry>, ids: set<string>, id: string)
    requires id in ids
    ensures TotalAttempts(entries, ids) == AttemptsOf(Get(entries, id)) + TotalAttempts(entries, ids - {id})
  {
    var first := Pick(ids);
    if first != id {
      TotalWithout(entries, ids - {first}, id);
      TotalWithout(entries, ids - {id}, first);
      assert ids - {first} - {id} == ids - {id} - {first};
    }
  }

  /** Ids without an entry add nothing. */
  lemma {:induction false} TotalOfAbsent(entries: map<string, Entry>, absent: set<string>)
    requires absent !! entries.Keys
    ensures TotalAttempts(entries, entries.Keys + absent) == TotalAttempts(entries, entries.Keys)
  {
    if absent == {} {
      assert entries.Keys + absent == entries.Keys;
    } else {
      var id := Pick(absent);
      TotalOfAbsent(entries, absent - {id});
      TotalWithout(entries, entries.Keys + absent, id);
      assert entries.Keys + absent - {id} == entries.Keys + (absent - {id});
    }
  }

  lemma {:induction false} TotalShifts(before: map<string, Entry>, after: map<string, Entry>, hit: set<string>, ids: set<string>)
    requires forall id :: AttemptsOf(Get(after, id)) == AttemptsOf(Get(before, id)) + (if id in hit then 1 else 0)
    ensures TotalAttempts(after, ids) == TotalAttempts(before, ids) + |ids * hit|
  {
    if ids == {} {
      assert ids * hit == {};
    } else {
      var id := Pick(ids);
      TotalShifts(before, after, hit, ids - {id});
      assert ids * hit == if id in hit then (ids - {id}) * hit + {id} else (ids - {id}) * hit;
    }
  }

  lemma TotalGrows(before: map<string, Entry>, after: map<string, Entry>, reported: set<string>, hit: set<string>)
    requires after.Keys == before.Keys + reported && hit <= reported
    requires forall id :: AttemptsOf(Get(after, id)) == AttemptsOf(Get(before, id)) + (if id in hit then 1 else 0)
    ensures TotalAttempts(after, after.Keys) == TotalAttempts(before, before.Keys) + |hit|
  {
    TotalShifts(before, after, hit, after.Keys);
    KeysAndReported(before.Keys, reported, hit);
    TotalOfAbsent(before, reported - before.Keys);
  }

  lemma KeysAndReported(keys: set<string>, reported: set<string>, hit: set<string>)
    requires hit <= reported
    ensures (keys + reported) * hit == hit && keys + reported == keys + (reported - keys) && (reported - keys) !! keys
  {
  }

  lemma RefoldShifts(before: map<string, Entry>, fs: seq<Finding>, queued: set<string>, dispatched: set<string>,
                     stamp: string, run: string, after: map<string, Entry>, reported: set<string>)
    requires IsRefold(before, fs, queued, dispatched, stamp, run, after) && reported == Current(fs).Keys
    ensures after.Keys == before.Keys + reported
    ensures forall id :: AttemptsOf(Get(after, id)) ==
                         AttemptsOf(Get(before, id)) + (if id in reported * dispatched then 1 else 0)
  {
    forall id
      ensures id in after <==> id in before || id in reported
      ensures AttemptsOf(Get(after, id)) == AttemptsOf(Get(before, id)) + (if id in reported * dispatched then 1 else 0)
    {
      RefoldSpends(Get(before, id), Get(Current(fs), id), id in queued, id in dispatched, stamp, run);
      assert Get(after, id) ==
        Refold(Get(before, id), Get(Current(fs), id), id in queued, id in dispatched, stamp, run);
    }
  }

  /** One fold raises the ledger's total attempts by exactly the dispatched ids that the report contains. */
  lemma FoldSpendsDispatched(l: Ledger, fs: seq<Finding>, d: FindingDiff, l': Ledger, queued: set<string>,
                             dispatched: set<string>, stamp: string, run: string)
    requires IsDiff(fs, l.entries, d)
    requires IsFold(l.entries, d, queued, dispatched, stamp, run, l'.entries)
    ensures l'.entries.Keys == l.entries.Keys + Current(fs).Keys
    ensures TotalAttempts(l'.entries, l'.entries.Keys) ==
            TotalAttempts(l.entries, l.entries.Keys) + |Current(fs).Keys * dispatched|
  {
    FoldOfDiff(l.entries, fs, d, queued, dispatched, stamp, run, l'.entries);
    RefoldShifts(l.entries, fs, queued, dispatched, stamp, run, l'.entries, Current(fs).Keys);
    TotalGrows(l.entries, l'.entries, Current(fs).Keys, Current(fs).Keys * dispatched);
  }

  // -- pruning and re-diffing ----------------------------------------------------------

  lemma PruningKeepsVerdicts(before: map<string, Entry>, after: map<string, Entry>, epoch: string -> Option<int>, cutoff: int)
    requires forall id {:trigger Get(after, id)} :: Get(after, id) == Pruned(Get(before, id), epoch, cutoff)
    ensures forall id, sev :: Classify(Get(after, id), sev) == Classify(Get(before, id), sev)
    ensures forall id, sev :: Owed(Get(after, id), sev) == Owed(Get(before, id), sev)
    ensures forall id :: id in after && after[id].state == Open <==> id in before && before[id].state == Open
  {
    forall id ensures id in after && after[id].state == Open <==> id in before && before[id].state == Open {
      assert Get(after, id) == Pruned(Get(before, id), epoch, cutoff);
    }
  }

  /** Pruning is invisible to dispatch: same diff, same pool, for every report. */
  lemma PruningIsInvisible(l: Ledger, pruned: Ledger, epoch: string -> Option<int>, cutoff: int, fs: seq<Finding>,
                           d: FindingDiff, d': FindingDiff)
    requires forall id {:trigger Get(pruned.entries, id)} :: Get(pruned.entries, id) == Pruned(Get(l.entries, id), epoch, cutoff)
    requires IsDiff(fs, l.entries, d) && IsDiff(fs, pruned.entries, d')
    ensures d == d' && DispatchPool(d, Some(l)) == DispatchPool(d', Some(pruned))
  {
    PruningKeepsVerdicts(l.entries, pruned.entries, epoch, cutoff);
    DiffDetermined(fs, l.entries, pruned.entries, d, d');
    PoolDetermined(fs, Some(l), Some(pruned), d, d');
  }

  /** Folding a report reaches a fixpoint: the same report diffed again is all unchanged. */
  lemma RediffIsQuiet(l: Ledger, fs: seq<Finding>, d: FindingDiff, l': Ledger, queued: set<string>,
                      dispatched: set<string>, stamp: string, run: string, again: FindingDiff)
    requires IsDiff(fs, l.entries, d)
    requires IsFold(l.entries, d, queued, dispatched, stamp, run, l'.entries)
    requires IsDiff(fs, l'.entries, again)
    ensures again.newly == [] && again.regressed == [] && again.resolved == []
    ensures forall f :: f in again.steady <==> f.id in Current(fs) && Current(fs)[f.id] == f
  {
    FoldOfDiff(l.entries, fs, d, queued, dispatched, stamp, run, l'.entries);
    forall id | id in Current(fs) ensures Classify(Get(l'.entries, id), Current(fs)[id].severity) == Unchanged {
      assert Get(l'.entries, id) ==
        Refold(Get(l.entries, id), Get(Current(fs), id), id in queued, id in dispatched, stamp, run);
    }
    forall id | id !in Current(fs) ensures !(id in l'.entries && l'.entries[id].state == Open) {
      assert Get(l'.entries, id) ==
        Refold(Get(l.entries, id), Get(Current(fs), id), id in queued, id in dispatched, stamp, run);
    }
    assert forall f :: f !in again.newly && f !in again.regressed;
    assert forall id :: id !in again.resolved;
    HeadIsMember(again.newly);
    HeadIsMember(again.regressed);
    HeadIsMember(again.resolved);
  }

  lemma HeadIsMember<T>(s: seq<T>)
    ensures s == [] || s[0] in s
  {
  }
}
