/** The audit ledger (`findings.py`): classify a report against the ledger, fold the result back in,
    hand findings off, prune. */
module Findings {
  import opened Common
  import opened Sorting

  datatype Severity = Low | Medium | High

  function Rank(s: Severity): nat {
    match s
    case Low => 0
    case Medium => 1
    case High => 2
  }

  datatype Finding = Finding(id: string, kind: string, severity: Severity, location: string, summary: string)

  datatype EntryState = Open | Resolved

  datatype Entry = Entry(
    kind: string, location: string, severity: Severity, state: EntryState,
    firstSeen: string, lastSeen: string, resolvedAt: Option<string>,
    attempts: int, lastDispatchedRun: Option<string>, queued: bool)

  datatype Ledger = Ledger(job: string, entries: map<string, Entry>, version: int, updated: Option<string>, runs: int)

  datatype FindingDiff = FindingDiff(
    newly: seq<Finding>, regressed: seq<Finding>, steady: seq<Finding>, resolved: seq<string>)

  /** The steps up: low to medium, low to high, medium to high. */
  predicate Rises(before: Severity, after: Severity) {
    (before == Low && after == Medium) || (before == Low && after == High) || (before == Medium && after == High)
  }

  /** `_order_key`: most severe first, then location, kind, id. */
  predicate Before(a: Finding, b: Finding) {
    || Rank(a.severity) > Rank(b.severity)
    || (a.severity == b.severity &&
        (|| StringLess(a.location, b.location)
         || (a.location == b.location &&
             (|| StringLess(a.kind, b.kind)
              || (a.kind == b.kind && StringLess(a.id, b.id))))))
  }

  ghost predicate UniqueIds(xs: set<Finding>) {
    forall f, g :: f in xs && g in xs && f.id == g.id ==> f == g
  }

  lemma BeforeTransitive(a: Finding, b: Finding, c: Finding)
    requires Before(a, b) && Before(b, c)
    ensures Before(a, c)
  {
    if StringLess(a.location, b.location) && StringLess(b.location, c.location) {
      StringLessTransitive(a.location, b.location, c.location);
    }
    if StringLess(a.kind, b.kind) && StringLess(b.kind, c.kind) { StringLessTransitive(a.kind, b.kind, c.kind); }
    if StringLess(a.id, b.id) && StringLess(b.id, c.id) { StringLessTransitive(a.id, b.id, c.id); }
  }

  lemma BeforeTotal(xs: set<Finding>)
    requires UniqueIds(xs)
    ensures TotalOn(Before, xs)
  {
    forall x, y, z | x in xs && y in xs && z in xs && Before(x, y) && Before(y, z) ensures Before(x, z) {
      BeforeTransitive(x, y, z);
    }
    forall x, y | x in xs && y in xs
      ensures Before(x, y) ==> x != y && !Before(y, x)
      ensures x != y ==> Before(x, y) || Before(y, x)
    {
      StringLessTotal(x.location, y.location);
      StringLessTotal(x.kind, y.kind);
      StringLessTotal(x.id, y.id);
    }
  }

  // -- diff ------------------------------------------------------------------

  /** `{f.id: f for f in findings}`: the last finding of an id wins. */
  function Current(fs: seq<Finding>): map<string, Finding> {
    if fs == [] then map[]
    else Current(fs[..|fs| - 1])[fs[|fs| - 1].id := fs[|fs| - 1]]
  }

  lemma {:induction false} CurrentMembers(fs: seq<Finding>)
    ensures forall id :: id in Current(fs) ==> Current(fs)[id].id == id && Current(fs)[id] in fs
    ensures forall f :: f in fs ==> f.id in Current(fs)
  {
    if fs != [] {
      CurrentMembers(fs[..|fs| - 1]);
      assert fs == fs[..|fs| - 1] + [fs[|fs| - 1]];
    }
  }

  datatype Verdict = New | Regressed | Unchanged

  /** One finding against the entry its id has in the ledger. */
  function Classify(was: Option<Entry>, severity: Severity): Verdict {
    if was.None? || was.value.state == Resolved then New
    else if Rank(severity) > Rank(was.value.severity) then Regressed
    else Unchanged
  }

  /** `part` is, in order, exactly the current findings with verdict `v`. */
  ghost predicate IsPart(part: seq<Finding>, cur: map<string, Finding>, entries: map<string, Entry>, v: Verdict) {
    && Sorted(Before, part)
    && forall f :: f in part <==> f.id in cur && cur[f.id] == f && Classify(Get(entries, f.id), f.severity) == v
  }

  ghost predicate IsDiff(fs: seq<Finding>, entries: map<string, Entry>, d: FindingDiff) {
    var cur := Current(fs);
    && IsPart(d.newly, cur, entries, New)
    && IsPart(d.regressed, cur, entries, Regressed)
    && IsPart(d.steady, cur, entries, Unchanged)
    && Sorted(StringLess, d.resolved)
    && forall id :: id in d.resolved <==> id in entries && entries[id].state == Open && id !in cur
  }

  function EntriesOf(ledger: Option<Ledger>): map<string, Entry> {
    if ledger.None? then map[] else ledger.value.entries
  }

  /** What one bucket of the classification loop holds while `todo` is still to be visited. */
  ghost predicate Bucket(part: seq<Finding>, cur: map<string, Finding>, entries: map<string, Entry>, v: Verdict,
                         todo: set<string>) {
    && Distinct(part)
    && forall f :: f in part <==>
         f.id in cur && f.id !in todo && cur[f.id] == f && Classify(Get(entries, f.id), f.severity) == v
  }

  lemma SortBucket(part: seq<Finding>, cur: map<string, Finding>, entries: map<string, Entry>, v: Verdict)
    requires Bucket(part, cur, entries, v, {})
    ensures IsPart(Sort(Before, part), cur, entries, v)
  {
    BeforeTotal(Elements(part));
    SortSorted(Before, part);
  }

  lemma Visit(part: seq<Finding>, cur: map<string, Finding>, entries: map<string, Entry>, v: Verdict,
              todo: set<string>, id: string)
    requires Bucket(part, cur, entries, v, todo) && id in todo && id in cur && cur[id].id == id
    ensures Bucket(if Classify(Get(entries, id), cur[id].severity) == v then part + [cur[id]] else part,
                   cur, entries, v, todo - {id})
  {
    assert cur[id] !in part;
  }

  /** The classification loop: every current finding lands in the bucket of its verdict, once. */
  method ClassifyAll(cur: map<string, Finding>, entries: map<string, Entry>)
    returns (newly: seq<Finding>, regressed: seq<Finding>, steady: seq<Finding>)
    requires forall id :: id in cur ==> cur[id].id == id
    ensures Bucket(newly, cur, entries, New, {})
    ensures Bucket(regressed, cur, entries, Regressed, {})
    ensures Bucket(steady, cur, entries, Unchanged, {})
    ensures forall f :: f in regressed <==>
              f.id in cur && cur[f.id] == f && f.id in entries && entries[f.id].state == Open && Rises(entries[f.id].severity, f.severity)
  {
    newly, regressed, steady := [], [], [];
    var todo := cur.Keys;
    while todo != {}
      invariant todo <= cur.Keys
      invariant Bucket(newly, cur, entries, New, todo)
      invariant Bucket(regressed, cur, entries, Regressed, todo)
      invariant Bucket(steady, cur, entries, Unchanged, todo)
    {
      var id :| id in todo;
      var f := cur[id];
      Visit(newly, cur, entries, New, todo, id);
      Visit(regressed, cur, entries, Regressed, todo, id);
      Visit(steady, cur, entries, Unchanged, todo, id);
      todo := todo - {id};
      if id !in entries || entries[id].state == Resolved {
        newly := newly + [f];
      } else if Rank(f.severity) > Rank(entries[id].severity) {
        regressed := regressed + [f];
      } else {
        steady := steady + [f];
      }
    }
  }

  /** `diff_findings`. */
  method DiffFindings(fs: seq<Finding>, ledger: Option<Ledger>) returns (d: FindingDiff)
    ensures IsDiff(fs, EntriesOf(ledger), d)
    ensures forall f :: f in d.regressed ==>
              f.id in EntriesOf(ledger) && EntriesOf(ledger)[f.id].state == Open && Rises(EntriesOf(ledger)[f.id].severity, f.severity)
    ensures forall f :: f in d.steady ==>
              f.id in EntriesOf(ledger) && EntriesOf(ledger)[f.id].state == Open && !Rises(EntriesOf(ledger)[f.id].severity, f.severity)
  {
    var entries := EntriesOf(ledger);
    var cur := Current(fs);
    CurrentMembers(fs);
    var newly, regressed, steady := ClassifyAll(cur, entries);
    var resolved := [];
    var left := entries.Keys;
    while left != {}
      invariant left <= entries.Keys
      invariant Distinct(resolved)
      invariant forall id :: id in resolved <==> id in entries && id !in left && entries[id].state == Open && id !in cur
    {
      var id :| id in left;
      left := left - {id};
      if entries[id].state == Open && id !in cur {
        resolved := resolved + [id];
      }
    }
    SortBucket(newly, cur, entries, New);
    SortBucket(regressed, cur, entries, Regressed);
    SortBucket(steady, cur, entries, Unchanged);
    StringsTotal(Elements(resolved));
    SortSorted(StringLess, resolved);
    d := FindingDiff(Sort(Before, newly), Sort(Before, regressed), Sort(Before, steady), Sort(StringLess, resolved));
  }

  /** The three lists by the ledger's entry and the two severities: new without an open entry, regressed on a rise,
      unchanged on the same severity or a drop. */
  lemma ListedBySeverity(fs: seq<Finding>, entries: map<string, Entry>, d: FindingDiff, id: string)
    requires IsDiff(fs, entries, d) && id in Current(fs)
    ensures var f := Current(fs)[id];
            && f.id == id
            && (f in d.newly <==> id !in entries || entries[id].state == Resolved)
            && (f in d.regressed <==> id in entries && entries[id].state == Open && Rises(entries[id].severity, f.severity))
            && (f in d.steady <==> id in entries && entries[id].state == Open && !Rises(entries[id].severity, f.severity))
  {
    CurrentMembers(fs);
  }

  /** No finding comes before a more severe one; among equals the order is by location, kind and id. */
  lemma MostSevereFirst(s: seq<Finding>, i: nat, j: nat)
    requires Sorted(Before, s) && i < j < |s|
    ensures !Rises(s[i].severity, s[j].severity)
    ensures s[i].severity == s[j].severity ==>
              || StringLess(s[i].location, s[j].location)
              || (s[i].location == s[j].location && StringLess(s[i].kind, s[j].kind))
              || (s[i].location == s[j].location && s[i].kind == s[j].kind && StringLess(s[i].id, s[j].id))
  {
    assert Before(s[i], s[j]);
  }

  /** Of several findings with an id the report's last counts. */
  lemma {:induction false} CurrentIsTheLast(fs: seq<Finding>, i: nat)
    requires i < |fs| && forall j :: i < j < |fs| ==> fs[j].id != fs[i].id
    ensures fs[i].id in Current(fs) && Current(fs)[fs[i].id] == fs[i]
  {
    var n := |fs| - 1;
    if i < n {
      CurrentIsTheLast(fs[..n], i);
    }
  }

  lemma PartUnique(p: seq<Finding>, q: seq<Finding>, cur: map<string, Finding>, entries: map<string, Entry>,
                   entries': map<string, Entry>, v: Verdict)
    requires IsPart(p, cur, entries, v) && IsPart(q, cur, entries', v)
    requires forall f :: f in cur.Values ==>
      (Classify(Get(entries, f.id), f.severity) == v <==> Classify(Get(entries', f.id), f.severity) == v)
    ensures p == q
  {
    forall f ensures f in p <==> f in q {
      if f in p { assert cur[f.id] in cur.Values; }
      if f in q { assert cur[f.id] in cur.Values; }
    }
    assert Elements(p) == Elements(q);
    BeforeTotal(Elements(p));
    SortedUnique(Before, p, q);
  }

  /** The classification determines the whole diff, so two ledgers that classify alike diff alike. */
  lemma DiffDetermined(fs: seq<Finding>, entries: map<string, Entry>, entries': map<string, Entry>,
                       d: FindingDiff, d': FindingDiff)
    requires IsDiff(fs, entries, d) && IsDiff(fs, entries', d')
    requires forall f :: f in Current(fs).Values ==>
      Classify(Get(entries, f.id), f.severity) == Classify(Get(entries', f.id), f.severity)
    requires forall id :: id !in Current(fs) ==>
      (id in entries && entries[id].state == Open <==> id in entries' && entries'[id].state == Open)
    ensures d == d'
  {
    PartUnique(d.newly, d'.newly, Current(fs), entries, entries', New);
    PartUnique(d.regressed, d'.regressed, Current(fs), entries, entries', Regressed);
    PartUnique(d.steady, d'.steady, Current(fs), entries, entries', Unchanged);
    assert Elements(d.resolved) == Elements(d'.resolved);
    StringsTotal(Elements(d.resolved));
    SortedUnique(StringLess, d.resolved, d'.resolved);
  }

  // -- dispatch pool -----------------------------------------------------------

  function Carried(fs: seq<Finding>, entries: map<string, Entry>): (r: seq<Finding>)
    ensures forall f :: f in r <==> f in fs && f.id in entries && entries[f.id].queued
    ensures |r| <= |fs|
  {
    if fs == [] then []
    else
      assert fs == [fs[0]] + fs[1..];
      (if fs[0].id in entries && entries[fs[0].id].queued then [fs[0]] else []) + Carried(fs[1..], entries)
  }

  /** `dispatch_pool`. */
  function DispatchPool(d: FindingDiff, ledger: Option<Ledger>): seq<Finding> {
    Sort(Before, d.newly + d.regressed + Carried(d.steady, EntriesOf(ledger)))
  }

  /** Whether a finding reported at `severity` is owed a fix, given the entry its id has. */
  predicate Owed(was: Option<Entry>, severity: Severity) {
    Classify(was, severity) != Unchanged || was.value.queued
  }

  lemma {:induction false} CarriedDistinct(fs: seq<Finding>, entries: map<string, Entry>)
    requires Distinct(fs)
    ensures Distinct(Carried(fs, entries))
  {
    if fs != [] {
      assert forall i, j :: 0 <= i < j < |fs[1..]| ==> fs[1..][i] == fs[i + 1] && fs[1..][j] == fs[j + 1];
      CarriedDistinct(fs[1..], entries);
      assert fs[0] !in fs[1..];
    }
  }

  lemma SortedDistinct(s: seq<Finding>)
    requires Sorted(Before, s)
    ensures Distinct(s)
  {
    forall i, j | 0 <= i < j < |s| ensures s[i] != s[j] {
      assert Before(s[i], s[j]);
      StringLessTotal(s[i].location, s[i].location);
      StringLessTotal(s[i].kind, s[i].kind);
      StringLessTotal(s[i].id, s[i].id);
    }
  }

  lemma DistinctConcat<T>(a: seq<T>, b: seq<T>)
    requires Distinct(a) && Distinct(b) && forall x :: x in a ==> x !in b
    ensures Distinct(a + b)
  {
    forall i, j | 0 <= i < j < |a + b| ensures (a + b)[i] != (a + b)[j] {
      if i < |a| <= j { assert a[i] in a && b[j - |a|] in b; }
    }
  }

  /** The pool is, most severe first and without repeats, exactly the reported findings still owed a fix. */
  lemma PoolIsOwed(fs: seq<Finding>, ledger: Option<Ledger>, d: FindingDiff)
    requires IsDiff(fs, EntriesOf(ledger), d)
    ensures Sorted(Before, DispatchPool(d, ledger))
    ensures forall f :: f in DispatchPool(d, ledger) <==>
      f.id in Current(fs) && Current(fs)[f.id] == f && Owed(Get(EntriesOf(ledger), f.id), f.severity)
  {
    var entries := EntriesOf(ledger);
    var carried := Carried(d.steady, entries);
    SortedDistinct(d.newly);
    SortedDistinct(d.regressed);
    SortedDistinct(d.steady);
    CarriedDistinct(d.steady, entries);
    DistinctConcat(d.newly, d.regressed);
    DistinctConcat(d.newly + d.regressed, carried);
    var all := d.newly + d.regressed + carried;
    forall f ensures f in all <==> f.id in Current(fs) && Current(fs)[f.id] == f && Owed(Get(entries, f.id), f.severity) {
      assert f in all <==> f in d.newly || f in d.regressed || f in carried;
    }
    BeforeTotal(Elements(all));
    SortSorted(Before, all);
  }

  /** The pool in the ledger's own terms: what has no open entry, what rose, and what is still queued. */
  lemma PoolInLedgerTerms(fs: seq<Finding>, ledger: Option<Ledger>, d: FindingDiff, id: string)
    requires IsDiff(fs, EntriesOf(ledger), d) && id in Current(fs)
    ensures var entries, f := EntriesOf(ledger), Current(fs)[id];
            f in DispatchPool(d, ledger) <==>
              || id !in entries || entries[id].state == Resolved
              || Rises(entries[id].severity, f.severity) || entries[id].queued
  {
    InPool(fs, ledger, d, id);
  }

  lemma InPool(fs: seq<Finding>, ledger: Option<Ledger>, d: FindingDiff, id: string)
    requires IsDiff(fs, EntriesOf(ledger), d) && id in Current(fs)
    ensures Current(fs)[id] in DispatchPool(d, ledger) <==> Owed(Get(EntriesOf(ledger), id), Current(fs)[id].severity)
  {
    CurrentMembers(fs);
    PoolIsOwed(fs, ledger, d);
  }

  /** The pool depends on the ledger only through what is owed. */
  lemma PoolDetermined(fs: seq<Finding>, ledger: Option<Ledger>, ledger': Option<Ledger>, d: FindingDiff, d': FindingDiff)
    requires IsDiff(fs, EntriesOf(ledger), d) && IsDiff(fs, EntriesOf(ledger'), d')
    requires forall id, sev :: Owed(Get(EntriesOf(ledger), id), sev) == Owed(Get(EntriesOf(ledger'), id), sev)
    ensures DispatchPool(d, ledger) == DispatchPool(d', ledger')
  {
    var pool, pool' := DispatchPool(d, ledger), DispatchPool(d', ledger');
    PoolIsOwed(fs, ledger, d);
    PoolIsOwed(fs, ledger', d');
    assert Elements(pool) == Elements(pool');
    BeforeTotal(Elements(pool));
    SortedUnique(Before, pool, pool');
  }

  // -- fold --------------------------------------------------------------------

  /** The last finding of `fs` with this id, if any. */
  function LastWith(fs: seq<Finding>, id: string): Option<Finding> {
    if fs == [] then None
    else if fs[|fs| - 1].id == id then Some(fs[|fs| - 1])
    else LastWith(fs[..|fs| - 1], id)
  }

  /** What one `apply_diff` makes of one id, on its own: the automaton behind the three-list fold. */
  function Folded(was: Option<Entry>, reported: Option<Finding>, resolved: bool, queue: bool, dispatch: bool,
                  stamp: string, run: string): Option<Entry> {
    if resolved && was.Some? then
      Some(was.value.(state := Resolved, resolvedAt := Some(stamp), queued := false))
    else if reported.Some? then
      Some(Entry(reported.value.kind, reported.value.location, reported.value.severity, Open,
                 if was.Some? then was.value.firstSeen else stamp, stamp, None,
                 (if was.Some? then was.value.attempts else 0) + (if dispatch then 1 else 0),
                 if dispatch then Some(run) else if was.Some? then was.value.lastDispatchedRun else None,
                 (was.Some? && was.value.state == Open && was.value.queued) || queue))
    else was
  }

  /** `after` is `before` with every id moved by its own automaton. */
  ghost predicate IsFold(before: map<string, Entry>, d: FindingDiff, queued: set<string>, dispatched: set<string>,
                         stamp: string, run: string, after: map<string, Entry>) {
    forall id {:trigger Get(after, id)} ::
      Get(after, id) == Folded(Get(before, id), LastWith(d.newly + d.regressed + d.steady, id), id in d.resolved,
                               id in queued, id in dispatched, stamp, run)
  }

  /** `apply_diff`, on any diff: each id ends up where its own automaton says, and no other id appears. */
  method ApplyDiff(ledger: Ledger, d: FindingDiff, stamp: string, run: string, queued: set<string>,
                   dispatched: set<string>) returns (l: Ledger)
    ensures l.job == ledger.job && l.version == ledger.version
    ensures l.updated == Some(stamp) && l.runs == ledger.runs + 1
    ensures IsFold(ledger.entries, d, queued, dispatched, stamp, run, l.entries)
  {
    var entries := ledger.entries;
    var all := d.newly + d.regressed + d.steady;
    for i := 0 to |all|
      invariant forall id ::
        Get(entries, id) == Folded(Get(ledger.entries, id), LastWith(all[..i], id), false, id in queued, id in dispatched, stamp, run)
    {
      var finding := all[i];
      assert all[..i + 1][..i] == all[..i];
      var was := Get(ledger.entries, finding.id);
      var firstSeen := if was.Some? then was.value.firstSeen else stamp;
      var baseAttempts := if was.Some? then was.value.attempts else 0;
      var wasQueued := was.Some? && was.value.state == Open && was.value.queued;
      var attempts := baseAttempts + (if finding.id in dispatched then 1 else 0);
      var lastRun := if finding.id in dispatched then Some(run)
        else if was.Some? then was.value.lastDispatchedRun else None;
      entries := entries[finding.id := Entry(finding.kind, finding.location, finding.severity, Open, firstSeen,
                                             stamp, None, attempts, lastRun, wasQueued || finding.id in queued)];
    }
    assert all[..|all|] == all;
    for i := 0 to |d.resolved|
      invariant forall id ::
        Get(entries, id) == Folded(Get(ledger.entries, id), LastWith(all, id), id in d.resolved[..i], id in queued, id in dispatched, stamp, run)
    {
      var id := d.resolved[i];
      assert forall x :: x in d.resolved[..i + 1] <==> x in d.resolved[..i] || x == id;
      var was := Get(ledger.entries, id);
      if was.Some? {
        entries := entries[id := was.value.(state := Resolved, resolvedAt := Some(stamp), queued := false)];
      }
    }
    assert d.resolved[..|d.resolved|] == d.resolved;
    l := Ledger(ledger.job, entries, ledger.version, Some(stamp), ledger.runs + 1);
  }

  /** `mark_handed_off`: clears `queued` on the named entries that exist and touches nothing else. */
  method MarkHandedOff(ledger: Ledger, ids: seq<string>) returns (l: Ledger)
    ensures l == ledger.(entries := l.entries)
    ensures forall id :: Get(l.entries, id) == HandedOff(Get(ledger.entries, id), id in ids)
    ensures forall id :: id in l.entries <==> id in ledger.entries
    ensures forall id :: id in l.entries ==>
              l.entries[id] == if id in ids then ledger.entries[id].(queued := false) else ledger.entries[id]
  {
    var entries := ledger.entries;
    for i := 0 to |ids|
      invariant forall id :: Get(entries, id) == HandedOff(Get(ledger.entries, id), id in ids[..i])
    {
      assert forall x :: x in ids[..i + 1] <==> x in ids[..i] || x == ids[i];
      if ids[i] in entries {
        assert Get(entries, ids[i]) == HandedOff(Get(ledger.entries, ids[i]), ids[i] in ids[..i]);
        entries := entries[ids[i] := entries[ids[i]].(queued := false)];
      }
    }
    assert ids[..|ids|] == ids;
    l := ledger.(entries := entries);
    forall id ensures Get(l.entries, id) == HandedOff(Get(ledger.entries, id), id in ids) {
    }
    assert forall id :: id in l.entries <==> Get(l.entries, id).Some?;
  }

  function HandedOff(e: Option<Entry>, taken: bool): Option<Entry> {
    if e.Some? && taken then Some(e.value.(queued := false)) else e
  }

  /** `_parse_epoch` as `epoch`: the instant a stored stamp denotes, if it parses. */
  predicate Expired(e: Entry, epoch: string -> Option<int>, cutoff: int) {
    e.state == Resolved && e.resolvedAt.Some? && epoch(e.resolvedAt.value).Some? && epoch(e.resolvedAt.value).value < cutoff
  }

  /** Which entries pruning drops: those resolved, with a stamp that parses, more than the days of retention ago. */
  lemma PrunedWhenOld(e: Entry, epoch: string -> Option<int>, now: int, retentionDays: int)
    ensures Pruned(Some(e), epoch, Cutoff(now, retentionDays)) ==
            if e.state == Resolved && e.resolvedAt.Some? && epoch(e.resolvedAt.value).Some?
               && now - epoch(e.resolvedAt.value).value > retentionDays * 24 * 60 * 60
            then None else Some(e)
    ensures Pruned(None, epoch, Cutoff(now, retentionDays)) == None
  {
  }

  const SECONDS_PER_DAY := 86_400

  function Cutoff(now: int, retentionDays: int): int {
    now - retentionDays * SECONDS_PER_DAY
  }

  function Pruned(e: Option<Entry>, epoch: string -> Option<int>, cutoff: int): Option<Entry> {
    if e.Some? && Expired(e.value, epoch, cutoff) then None else e
  }

  /** `prune_ledger`: only resolved entries older than the retention go. */
  method PruneLedger(ledger: Ledger, epoch: string -> Option<int>, now: int, retentionDays: int) returns (l: Ledger)
    ensures l == ledger.(entries := l.entries)
    ensures forall id :: Get(l.entries, id) == Pruned(Get(ledger.entries, id), epoch, Cutoff(now, retentionDays))
  {
    var cutoff := now - retentionDays * SECONDS_PER_DAY;
    var kept: map<string, Entry> := map[];
    var todo := ledger.entries.Keys;
    while todo != {}
      invariant todo <= ledger.entries.Keys
      invariant forall id ::
        Get(kept, id) == (if id in todo then None else Pruned(Get(ledger.entries, id), epoch, cutoff))
    {
      var id :| id in todo;
      todo := todo - {id};
      var entry := ledger.entries[id];
      if entry.state == Resolved && entry.resolvedAt.Some? && epoch(entry.resolvedAt.value).Some?
         && epoch(entry.resolvedAt.value).value < cutoff {
      } else {
        kept := kept[id := entry];
      }
    }
    l := ledger.(entries := kept);
  }
}
