/** Choosing the pull requests to review (`review_scan.py`, attempt counting in `auto_fix.py`). */
module ReviewScan {
  import opened Common
  import opened History
  import opened Json
  import opened Sequences
  import opened Sorting

  /** One search result. */
  datatype Pr = Pr(repo: string, number: int, createdAt: string, updatedAt: string, headRef: string,
                   author: Option<string>, headRepo: Option<string>, mode: string)

  function Decimal(n: nat): string {
    if n < 10 then ['0' + n as char] else Decimal(n / 10) + ['0' + (n % 10) as char]
  }

  /** `owner/repo#N`. */
  function KeyOf(pr: Pr): string
    requires pr.number > 0
  {
    pr.repo + "#" + Decimal(pr.number)
  }

  datatype Candidate = Candidate(key: string, pr: Pr)

  datatype Disposition =
    | AuthorMismatch | RoutineOwnedBranch | ForkPr | MaxAttemptsExceeded | ReviewAlreadyPosted | OverCap

  datatype Row = Row(key: string, why: Disposition)

  datatype Job = Job(name: string, includeAutoBranches: bool, maxAttempts: nat, maxTargets: nat)

  datatype Posted = Posted(author: Option<string>, body: string)

  /** What the searches and fetched answer; `trusted` judges an author's login. */
  datatype World = World(
    login: string,
    prs: Option<seq<Pr>>,
    records: seq<Record>,                          // the job's history
    bodies: string -> Option<seq<Posted>>,         // by target key; None when the read failed
    trusted: string -> bool,
    marker: string -> string)

  /** What the decimal digits stand for. */
  function Number(digits: string): int {
    if digits == "" then 0 else 10 * Number(digits[..|digits| - 1]) + (digits[|digits| - 1] as int - '0' as int)
  }

  /** A key names its PR: the number reads back. */
  lemma {:induction false} DecimalReadsBack(n: nat)
    ensures Decimal(n) != "" && Number(Decimal(n)) == n
    ensures forall i :: 0 <= i < |Decimal(n)| ==> '0' <= Decimal(n)[i] <= '9'
  {
    if n < 10 {
      assert Decimal(n)[..0] == "";
    } else {
      DecimalReadsBack(n / 10);
      assert Decimal(n)[..|Decimal(n)| - 1] == Decimal(n / 10);
    }
  }

  // -- the scan ---------------------------------------------------------------------------

  /** `_skip_reason`: the first that applies. */
  function SkipReason(pr: Pr, login: string, includeAutoBranches: bool): Option<Disposition> {
    if pr.mode == "author" && pr.author != Some(login) then Some(AuthorMismatch)
    else if "auto/" <= pr.headRef && !includeAutoBranches then Some(RoutineOwnedBranch)
    else if pr.headRepo != Some(pr.repo) then Some(ForkPr)
    else None
  }

  /** Why a result is skipped: searched by author but not this one's; else a routine's branch, unless asked for; else from a
      fork. */
  lemma SkippedFor(pr: Pr, login: string, includeAutoBranches: bool)
    ensures SkipReason(pr, login, includeAutoBranches) ==
            if pr.mode == "author" && pr.author != Some(login) then Some(AuthorMismatch)
            else if !includeAutoBranches && "auto/" <= pr.headRef then Some(RoutineOwnedBranch)
            else if pr.headRepo == Some(pr.repo) then None
            else Some(ForkPr)
  {
  }

  function Wanted(w: World, job: Job): Candidate -> bool {
    (c: Candidate) => SkipReason(c.pr, w.login, job.includeAutoBranches).None?
  }

  function Unwanted(w: World, job: Job): Candidate -> bool {
    (c: Candidate) => SkipReason(c.pr, w.login, job.includeAutoBranches).Some?
  }

  /** The targets of a search, in its order: the first result of each key, malformed numbers aside. */
  function Enumerated(prs: seq<Pr>): (targets: seq<Candidate>) {
    if prs == [] then []
    else
      var before := Enumerated(prs[..|prs| - 1]);
      var pr := prs[|prs| - 1];
      if pr.number <= 0 || KeyOf(pr) in Keys(before) then before else before + [Candidate(KeyOf(pr), pr)]
  }

  function Keys(cs: seq<Candidate>): seq<string> {
    if cs == [] then [] else Keys(cs[..|cs| - 1]) + [cs[|cs| - 1].key]
  }

  ghost predicate DistinctKeys(cs: seq<Candidate>) {
    forall i, j :: 0 <= i < j < |cs| ==> cs[i].key != cs[j].key
  }

  /** Oldest first. */
  predicate Older(a: Candidate, b: Candidate) {
    || StringLess(a.pr.createdAt, b.pr.createdAt)
    || (a.pr.createdAt == b.pr.createdAt && StringLess(a.pr.updatedAt, b.pr.updatedAt))
    || (a.pr.createdAt == b.pr.createdAt && a.pr.updatedAt == b.pr.updatedAt && StringLess(a.key, b.key))
  }

  predicate KeyLess(a: Candidate, b: Candidate) {
    StringLess(a.key, b.key)
  }

  /** The earlier created goes first, then the earlier updated, then the lower key. */
  lemma OlderMeans(a: Candidate, b: Candidate)
    ensures StringLess(a.pr.createdAt, b.pr.createdAt) ==> Older(a, b)
    ensures Older(a, b) ==> !StringLess(b.pr.createdAt, a.pr.createdAt)
    ensures Older(a, b) && a.pr.createdAt == b.pr.createdAt ==> !StringLess(b.pr.updatedAt, a.pr.updatedAt)
    ensures Older(a, b) && a.pr.createdAt == b.pr.createdAt && a.pr.updatedAt == b.pr.updatedAt ==> StringLess(a.key, b.key)
  {
    StringLessTotal(a.pr.createdAt, b.pr.createdAt);
    StringLessTotal(a.pr.updatedAt, b.pr.updatedAt);
  }

  lemma {:induction false} KeysOf(cs: seq<Candidate>)
    ensures |Keys(cs)| == |cs| && forall i :: 0 <= i < |cs| ==> Keys(cs)[i] == cs[i].key
  {
    if cs != [] {
      KeysOf(cs[..|cs| - 1]);
    }
  }

  /** Each well-numbered result is enumerated exactly once, under its key. */
  lemma {:induction false} EnumeratesOnce(prs: seq<Pr>)
    ensures DistinctKeys(Enumerated(prs))
    ensures forall pr :: pr in prs && pr.number > 0 ==> KeyOf(pr) in Keys(Enumerated(prs))
    ensures forall c :: c in Enumerated(prs) ==> c.pr in prs && c.pr.number > 0 && c.key == KeyOf(c.pr)
  {
    if prs != [] {
      var before := Enumerated(prs[..|prs| - 1]);
      EnumeratesOnce(prs[..|prs| - 1]);
      KeysOf(before);
      KeysOf(Enumerated(prs));
      Snoc(prs, |prs| - 1);
    }
  }

  /** `scan_review_targets`: (candidates, skipped, enumerated), or None when the search failed. */
  method Scan(w: World, job: Job) returns (found: Option<(seq<Candidate>, seq<Candidate>, nat)>)
    ensures found.None? <==> w.prs.None?
    ensures found.Some? ==>
      var targets := Enumerated(w.prs.value);
      found.value == (Sort(Older, Filter(Wanted(w, job), targets)), Sort(KeyLess, Filter(Unwanted(w, job), targets)), |targets|)
  {
    if w.prs.None? {
      return None;
    }
    var prs := w.prs.value;
    var seen: set<string> := {};
    var candidates: seq<Candidate>, skipped: seq<Candidate>, enumerated := [], [], 0;
    for i := 0 to |prs|
      invariant forall key :: key in seen <==> key in Keys(Enumerated(prs[..i]))
      invariant enumerated == |Enumerated(prs[..i])|
      invariant candidates == Filter(Wanted(w, job), Enumerated(prs[..i]))
      invariant skipped == Filter(Unwanted(w, job), Enumerated(prs[..i]))
    {
      EnumeratedStep(w, job, prs, i);
      if prs[i].number <= 0 {
        continue;
      }
      var cand := Candidate(KeyOf(prs[i]), prs[i]);
      if cand.key in seen {
        continue;
      }
      seen := seen + {cand.key};
      enumerated := enumerated + 1;
      if SkipReason(prs[i], w.login, job.includeAutoBranches).Some? {
        skipped := skipped + [cand];
      } else {
        candidates := candidates + [cand];
      }
    }
    assert prs[..|prs|] == prs;
    found := Some((Sort(Older, candidates), Sort(KeyLess, skipped), enumerated));
  }

  lemma EnumeratedStep(w: World, job: Job, prs: seq<Pr>, i: nat)
    requires i < |prs|
    ensures var before, pr := Enumerated(prs[..i]), prs[i];
            if pr.number <= 0 || KeyOf(pr) in Keys(before) then Enumerated(prs[..i + 1]) == before
            else
              var c := Candidate(KeyOf(pr), pr);
              && Enumerated(prs[..i + 1]) == before + [c] && Keys(before + [c]) == Keys(before) + [c.key]
              && Filter(Wanted(w, job), before + [c]) == Filter(Wanted(w, job), before) + (if Wanted(w, job)(c) then [c] else [])
              && Filter(Unwanted(w, job), before + [c]) == Filter(Unwanted(w, job), before) + (if Wanted(w, job)(c) then [] else [c])
  {
    assert prs[..i + 1][..i] == prs[..i];
    if prs[i].number > 0 {
      var before, c := Enumerated(prs[..i]), Candidate(KeyOf(prs[i]), prs[i]);
      FilterStep(Wanted(w, job), before, c);
      FilterStep(Unwanted(w, job), before, c);
      assert (before + [c])[..|before|] == before;
    }
  }

  // -- attempts -----------------------------------------------------------------------------

  const COUNTABLE: set<string> := {"review_not_posted", "review_verification_failed", "verify_failed:review_posted", "no_report", "blocked"}

  /** `_review_attempt_consumed`: an agent may have posted. */
  predicate AttemptConsumed(state: State, reason: Json) {
    || state in {Done, InterruptedUnknown}
    || (state == Failed && reason.JStr? && (reason.s in COUNTABLE || "unsettled_status_" <= reason.s))
  }

  predicate CountsFor(r: Record, key: string) {
    Field(r.extra, "target_key") == JStr(key) && AttemptConsumed(r.state, Field(r.extra, "reason"))
  }

  /** What costs an attempt: a run that ended done or unknown, or that failed where its agent may have posted. */
  lemma WhatCosts(r: Record, key: string)
    ensures CountsFor(r, key) <==>
              && Field(r.extra, "target_key") == JStr(key)
              && (|| r.state == Done || r.state == InterruptedUnknown
                  || (r.state == Failed && Field(r.extra, "reason").JStr?
                      && var reason := Field(r.extra, "reason").s;
                         || reason == "review_not_posted" || reason == "review_verification_failed"
                         || reason == "verify_failed:review_posted" || reason == "no_report" || reason == "blocked"
                         || "unsettled_status_" <= reason))
  {
  }

  function AttemptCount(records: seq<Record>, key: string): nat {
    if records == [] then 0
    else AttemptCount(records[..|records| - 1], key) + if CountsFor(records[|records| - 1], key) then 1 else 0
  }

  /** `attempt_count_for_target`. */
  method AttemptCountForTarget(records: seq<Record>, key: string) returns (count: nat)
    ensures count == AttemptCount(records, key)
  {
    count := 0;
    for i := 0 to |records|
      invariant count == AttemptCount(records[..i], key)
    {
      Snoc(records, i);
      var r := records[i];
      if r.extra == map[] || Field(r.extra, "target_key") != JStr(key) {
        continue;
      }
      if AttemptConsumed(r.state, Field(r.extra, "reason")) {
        count := count + 1;
      }
    }
    assert records[..|records|] == records;
  }

  function InBudget(w: World, job: Job): Candidate -> bool {
    (c: Candidate) => AttemptCount(w.records, c.key) < job.maxAttempts
  }

  function Spent(w: World, job: Job): Candidate -> bool {
    (c: Candidate) => AttemptCount(w.records, c.key) >= job.maxAttempts
  }

  /** `apply_attempt_budget`. */
  method ApplyAttemptBudget(w: World, job: Job, cs: seq<Candidate>) returns (kept: seq<Candidate>, skipped: seq<Candidate>)
    ensures kept == Filter(InBudget(w, job), cs) && skipped == Filter(Spent(w, job), cs)
  {
    kept, skipped := [], [];
    for i := 0 to |cs|
      invariant kept == Filter(InBudget(w, job), cs[..i]) && skipped == Filter(Spent(w, job), cs[..i])
    {
      Snoc(cs, i);
      FilterStep(InBudget(w, job), cs[..i], cs[i]);
      FilterStep(Spent(w, job), cs[..i], cs[i]);
      var attempt := AttemptCountForTarget(w.records, cs[i].key);
      if attempt >= job.maxAttempts {
        skipped := skipped + [cs[i]];
      } else {
        kept := kept + [cs[i]];
      }
    }
    assert cs[..|cs|] == cs;
  }

  // -- the marker -----------------------------------------------------------------------------

  /** `has_trusted_marker`; a missing or empty login is never trusted. */
  predicate HasTrustedMarker(w: World, posted: seq<Posted>, marker: string) {
    exists p :: p in posted && Contains(p.body, marker) && p.author.Some? && p.author.value != "" && w.trusted(p.author.value)
  }

  /** The PR is known to carry this job's marker; an unread one is not. */
  predicate Marked(w: World, c: Candidate) {
    w.bodies(c.key).Some? && HasTrustedMarker(w, w.bodies(c.key).value, w.marker(c.key))
  }

  /** Marked: something posted has the marker in it and an author who is trusted. */
  lemma MarkedMeans(w: World, c: Candidate)
    ensures Marked(w, c) <==>
              && w.bodies(c.key).Some?
              && exists i :: 0 <= i < |w.bodies(c.key).value| && Signed(w, w.bodies(c.key).value[i], w.marker(c.key))
  {
    if w.bodies(c.key).Some? {
      var posted, marker := w.bodies(c.key).value, w.marker(c.key);
      if HasTrustedMarker(w, posted, marker) {
        var p :| p in posted && Contains(p.body, marker) && p.author.Some? && p.author.value != "" && w.trusted(p.author.value);
        SignedMeans(w, p, marker);
        var i :| 0 <= i < |posted| && posted[i] == p;
        assert Signed(w, posted[i], marker);
      }
      if i :| 0 <= i < |posted| && Signed(w, posted[i], marker) {
        SignedMeans(w, posted[i], marker);
        assert posted[i] in posted;
      }
    }
  }

  /** A body with the marker somewhere in it, by a named author who is trusted. */
  ghost predicate Signed(w: World, p: Posted, marker: string) {
    && (exists before: string, rest: string :: p.body == before + marker + rest)
    && (match p.author
        case Some(name) => |name| > 0 && w.trusted(name)
        case None => false)
  }

  lemma SignedMeans(w: World, p: Posted, marker: string)
    ensures Signed(w, p, marker) <==> Contains(p.body, marker) && p.author.Some? && p.author.value != "" && w.trusted(p.author.value)
  {
    if Contains(p.body, marker) {
      var before, rest := ContainedPart(p.body, marker);
    }
    forall before: string, rest: string | p.body == before + marker + rest ensures Contains(p.body, marker) {
      PartIsContained(before, marker, rest);
    }
  }

  function Posting(w: World): Candidate -> bool {
    (c: Candidate) => Marked(w, c)
  }

  function NotPosted(w: World): Candidate -> bool {
    (c: Candidate) => !Marked(w, c)
  }

  /** `apply_marker_guard`; `fetched` are the targets whose bodies were fetched. */
  method ApplyMarkerGuard(w: World, cs: seq<Candidate>)
    returns (kept: seq<Candidate>, skipped: seq<Candidate>, fetched: seq<string>)
    ensures kept == Filter(NotPosted(w), cs) && skipped == Filter(Posting(w), cs) && fetched == Keys(cs)
  {
    kept, skipped, fetched := [], [], [];
    for i := 0 to |cs|
      invariant kept == Filter(NotPosted(w), cs[..i]) && skipped == Filter(Posting(w), cs[..i]) && fetched == Keys(cs[..i])
    {
      Snoc(cs, i);
      FilterStep(NotPosted(w), cs[..i], cs[i]);
      FilterStep(Posting(w), cs[..i], cs[i]);
      var bodies := w.bodies(cs[i].key);
      fetched := fetched + [cs[i].key];
      if bodies.None? {
        kept := kept + [cs[i]];
        continue;
      }
      if HasTrustedMarker(w, bodies.value, w.marker(cs[i].key)) {
        skipped := skipped + [cs[i]];
      } else {
        kept := kept + [cs[i]];
      }
    }
    assert cs[..|cs|] == cs;
  }

  // -- the whole selector -------------------------------------------------------------------------

  function Least(a: nat, b: nat): nat {
    if a < b then a else b
  }

  /** The candidates still in budget, oldest first. */
  function Budgeted(w: World, job: Job, prs: seq<Pr>): seq<Candidate> {
    Filter(InBudget(w, job), Sort(Older, Filter(Wanted(w, job), Enumerated(prs))))
  }

  /** The cap's window, the only ones whose bodies are read. */
  function Window(w: World, job: Job, prs: seq<Pr>): seq<Candidate> {
    var budgeted := Budgeted(w, job, prs);
    budgeted[..Least(job.maxTargets, |budgeted|)]
  }

  function Beyond(w: World, job: Job, prs: seq<Pr>): seq<Candidate> {
    var budgeted := Budgeted(w, job, prs);
    budgeted[Least(job.maxTargets, |budgeted|)..]
  }

  /** What the cap sees. */
  function Survivors(w: World, job: Job, prs: seq<Pr>): seq<Candidate> {
    Filter(NotPosted(w), Window(w, job, prs)) + Beyond(w, job, prs)
  }

  function Dispatchable(w: World, job: Job, prs: seq<Pr>): seq<Candidate> {
    var survivors := Survivors(w, job, prs);
    survivors[..Least(job.maxTargets, |survivors|)]
  }

  function Over(w: World, job: Job, prs: seq<Pr>): seq<Candidate> {
    var survivors := Survivors(w, job, prs);
    survivors[Least(job.maxTargets, |survivors|)..]
  }

  /** Rows for candidates that all stopped for the same reason. */
  function RowsFor(cs: seq<Candidate>, why: Disposition): seq<Row> {
    if cs == [] then [] else RowsFor(cs[..|cs| - 1], why) + [Row(cs[|cs| - 1].key, why)]
  }

  /** Rows for the candidates the scan skipped, each with its own reason. */
  function ScanRows(cs: seq<Candidate>, w: World, job: Job): seq<Row> {
    if cs == [] then []
    else
      var c := cs[|cs| - 1];
      var reason := SkipReason(c.pr, w.login, job.includeAutoBranches);
      ScanRows(cs[..|cs| - 1], w, job) + if reason.Some? then [Row(c.key, reason.value)] else []
  }

  function RowsOf(w: World, job: Job, prs: seq<Pr>): seq<Row> {
    var targets := Enumerated(prs);
    ScanRows(Sort(KeyLess, Filter(Unwanted(w, job), targets)), w, job)
    + RowsFor(Filter(Spent(w, job), Sort(Older, Filter(Wanted(w, job), targets))), MaxAttemptsExceeded)
    + RowsFor(Filter(Posting(w), Window(w, job, prs)), ReviewAlreadyPosted)
    + RowsFor(Over(w, job, prs), OverCap)
  }

  datatype Classification = Classification(rows: seq<Row>, dispatchable: seq<Candidate>, enumerated: nat, candidateCount: nat,
                                           fetched: seq<string>)

  /** `cap_candidates`. */
  function CapCandidates(cs: seq<Candidate>, maxTargets: nat): (seq<Candidate>, seq<Candidate>) {
    (cs[..Least(maxTargets, |cs|)], cs[Least(maxTargets, |cs|)..])
  }

  /** `classify_review_candidates`: scan, budget, marker on the window, cap. */
  method Classify(w: World, job: Job) returns (result: Option<Classification>)
    ensures result.None? <==> w.prs.None?
    ensures result.Some? ==>
      && result.value.rows == RowsOf(w, job, w.prs.value)
      && result.value.dispatchable == Dispatchable(w, job, w.prs.value)
      && result.value.enumerated == |Enumerated(w.prs.value)|
      && result.value.candidateCount == |Filter(Wanted(w, job), Enumerated(w.prs.value))|
      && result.value.fetched == Keys(Window(w, job, w.prs.value))
  {
    var outcome := Scan(w, job);
    if outcome.None? {
      return None;
    }
    var (candidates, skipped, enumerated) := outcome.value;
    var rows := ScanRows(skipped, w, job);
    var budgeted, budgetSkipped := ApplyAttemptBudget(w, job, candidates);
    rows := rows + RowsFor(budgetSkipped, MaxAttemptsExceeded);
    var window := budgeted[..Least(job.maxTargets, |budgeted|)];
    var checked, markerSkipped, fetched := ApplyMarkerGuard(w, window);
    rows := rows + RowsFor(markerSkipped, ReviewAlreadyPosted);
    var (toDispatch, overCap) := CapCandidates(checked + budgeted[Least(job.maxTargets, |budgeted|)..], job.maxTargets);
    rows := rows + RowsFor(overCap, OverCap);
    result := Some(Classification(rows, toDispatch, enumerated, |candidates|, fetched));
  }

  // -- what the selection guarantees -----------------------------------------------------------------

  lemma OlderTransitive(a: Candidate, b: Candidate, c: Candidate)
    requires Older(a, b) && Older(b, c)
    ensures Older(a, c)
  {
    if StringLess(a.pr.createdAt, b.pr.createdAt) && StringLess(b.pr.createdAt, c.pr.createdAt) {
      StringLessTransitive(a.pr.createdAt, b.pr.createdAt, c.pr.createdAt);
    } else if a.pr.createdAt == b.pr.createdAt == c.pr.createdAt {
      if StringLess(a.pr.updatedAt, b.pr.updatedAt) && StringLess(b.pr.updatedAt, c.pr.updatedAt) {
        StringLessTransitive(a.pr.updatedAt, b.pr.updatedAt, c.pr.updatedAt);
      } else if a.pr.updatedAt == b.pr.updatedAt == c.pr.updatedAt {
        StringLessTransitive(a.key, b.key, c.key);
      }
    }
  }

  lemma OlderTotalOn(cs: seq<Candidate>)
    requires DistinctKeys(cs)
    ensures TotalOn(Older, Elements(cs)) && Distinct(cs)
  {
    forall x, y | x in Elements(cs) && y in Elements(cs)
      ensures Older(x, y) ==> x != y && !Older(y, x)
      ensures x != y ==> Older(x, y) || Older(y, x)
    {
      StringLessTotal(x.pr.createdAt, y.pr.createdAt);
      StringLessTotal(x.pr.updatedAt, y.pr.updatedAt);
      StringLessTotal(x.key, y.key);
    }
    forall x, y, z | x in Elements(cs) && y in Elements(cs) && z in Elements(cs) && Older(x, y) && Older(y, z)
      ensures Older(x, z)
    {
      OlderTransitive(x, y, z);
    }
  }

  lemma {:induction false} FilterDistinctKeys(p: Candidate -> bool, cs: seq<Candidate>)
    requires DistinctKeys(cs)
    ensures DistinctKeys(Filter(p, cs))
  {
    if cs != [] {
      var n := |cs| - 1;
      FilterDistinctKeys(p, cs[..n]);
      var kept := Filter(p, cs[..n]);
      forall i | 0 <= i < |kept| ensures kept[i].key != cs[n].key {
        FilterKeeps(p, cs[..n], kept[i]);
      }
    }
  }

  lemma BudgetedSorted(w: World, job: Job, prs: seq<Pr>)
    ensures Sorted(Older, Budgeted(w, job, prs))
  {
    EnumeratesOnce(prs);
    var wanted := Filter(Wanted(w, job), Enumerated(prs));
    FilterDistinctKeys(Wanted(w, job), Enumerated(prs));
    OlderTotalOn(wanted);
    SortSorted(Older, wanted);
    FilterSorted(Older, InBudget(w, job), Sort(Older, wanted));
  }

  lemma SurvivorsSorted(w: World, job: Job, prs: seq<Pr>)
    ensures Sorted(Older, Survivors(w, job, prs))
  {
    BudgetedSorted(w, job, prs);
    var budgeted := Budgeted(w, job, prs);
    FrontFilterSorted(Older, NotPosted(w), budgeted, Least(job.maxTargets, |budgeted|));
  }

  /** At most the cap is dispatched, oldest first, and nothing older is left over the cap. */
  lemma OldestAreDispatched(w: World, job: Job, prs: seq<Pr>)
    ensures |Dispatchable(w, job, prs)| <= job.maxTargets
    ensures Sorted(Older, Dispatchable(w, job, prs))
    ensures forall i, j :: 0 <= i < |Dispatchable(w, job, prs)| && 0 <= j < |Over(w, job, prs)| ==>
              Older(Dispatchable(w, job, prs)[i], Over(w, job, prs)[j])
    ensures forall i, j :: 0 <= i < |Dispatchable(w, job, prs)| && 0 <= j < |Over(w, job, prs)| ==>
              !StringLess(Over(w, job, prs)[j].pr.createdAt, Dispatchable(w, job, prs)[i].pr.createdAt)
    ensures Over(w, job, prs) != [] ==> |Dispatchable(w, job, prs)| == job.maxTargets
    ensures |Keys(Window(w, job, prs))| <= job.maxTargets
  {
    SurvivorsSorted(w, job, prs);
    KeysOf(Window(w, job, prs));
    var d, over := Dispatchable(w, job, prs), Over(w, job, prs);
    forall i, j | 0 <= i < |d| && 0 <= j < |over| ensures Older(d[i], over[j]) && !StringLess(over[j].pr.createdAt, d[i].pr.createdAt) {
      OlderMeans(d[i], over[j]);
    }
  }

  /** Whatever is dispatched came from the search, has no skip reason, and has attempts left. */
  lemma DispatchedIsEligible(w: World, job: Job, prs: seq<Pr>, c: Candidate)
    requires c in Dispatchable(w, job, prs)
    ensures c.pr in prs && c.pr.number > 0 && c.key == KeyOf(c.pr)
    ensures SkipReason(c.pr, w.login, job.includeAutoBranches).None?
    ensures c.pr.mode == "author" ==> c.pr.author == Some(w.login)
    ensures "auto/" <= c.pr.headRef ==> job.includeAutoBranches
    ensures c.pr.headRepo == Some(c.pr.repo)
    ensures AttemptCount(w.records, c.key) < job.maxAttempts
  {
    var targets := Enumerated(prs);
    EnumeratesOnce(prs);
    assert c in Survivors(w, job, prs);
    FilterKeeps(NotPosted(w), Window(w, job, prs), c);
    assert c in Budgeted(w, job, prs);
    FilterKeeps(InBudget(w, job), Sort(Older, Filter(Wanted(w, job), targets)), c);
    FilterKeeps(Wanted(w, job), targets, c);
  }

  /** A row's reason is true of its candidate. */
  ghost predicate Because(w: World, job: Job, prs: seq<Pr>, c: Candidate, why: Disposition) {
    match why
    case AuthorMismatch => c.pr.mode == "author" && c.pr.author != Some(w.login)
    case RoutineOwnedBranch => "auto/" <= c.pr.headRef && !job.includeAutoBranches
    case ForkPr => c.pr.headRepo != Some(c.pr.repo)
    case MaxAttemptsExceeded => AttemptCount(w.records, c.key) >= job.maxAttempts
    case ReviewAlreadyPosted => Marked(w, c) && c in Window(w, job, prs)
    case OverCap => c in Over(w, job, prs) && |Dispatchable(w, job, prs)| == job.maxTargets
  }

  /** The row is of a target of the search, and its reason holds of that target. */
  ghost predicate HasReason(w: World, job: Job, prs: seq<Pr>, row: Row) {
    exists c: Candidate :: c in Enumerated(prs) && c.key == row.key && Because(w, job, prs, c, row.why)
  }

  lemma {:induction false} ReasonsOf(w: World, job: Job, prs: seq<Pr>, cs: seq<Candidate>, why: Disposition)
    requires forall c :: c in cs ==> c in Enumerated(prs) && Because(w, job, prs, c, why)
    ensures forall row :: row in RowsFor(cs, why) ==> HasReason(w, job, prs, row)
  {
    if cs != [] {
      var n := |cs| - 1;
      ReasonsOf(w, job, prs, cs[..n], why);
      assert cs[n] in cs && cs[n].key == Row(cs[n].key, why).key && Because(w, job, prs, cs[n], why);
    }
  }

  lemma {:induction false} ReasonsOfScan(w: World, job: Job, prs: seq<Pr>, cs: seq<Candidate>)
    requires forall c :: c in cs ==> c in Enumerated(prs)
    ensures forall row :: row in ScanRows(cs, w, job) ==> HasReason(w, job, prs, row)
  {
    if cs != [] {
      var n := |cs| - 1;
      ReasonsOfScan(w, job, prs, cs[..n]);
      var reason := SkipReason(cs[n].pr, w.login, job.includeAutoBranches);
      if reason.Some? {
        SkippedFor(cs[n].pr, w.login, job.includeAutoBranches);
        assert cs[n] in cs && cs[n].key == Row(cs[n].key, reason.value).key && Because(w, job, prs, cs[n], reason.value);
      }
    }
  }

  lemma SkippedRowsSayWhy(w: World, job: Job, prs: seq<Pr>)
    ensures forall row :: row in ScanRows(Sort(KeyLess, Filter(Unwanted(w, job), Enumerated(prs))), w, job) ==> HasReason(w, job, prs, row)
  {
    var skipped := Sort(KeyLess, Filter(Unwanted(w, job), Enumerated(prs)));
    forall c | c in skipped ensures c in Enumerated(prs) {
      FilterKeeps(Unwanted(w, job), Enumerated(prs), c);
    }
    ReasonsOfScan(w, job, prs, skipped);
  }

  lemma SpentRowsSayWhy(w: World, job: Job, prs: seq<Pr>)
    ensures forall row :: row in RowsFor(Filter(Spent(w, job), Sort(Older, Filter(Wanted(w, job), Enumerated(prs)))), MaxAttemptsExceeded)
              ==> HasReason(w, job, prs, row)
  {
    var candidates := Sort(Older, Filter(Wanted(w, job), Enumerated(prs)));
    forall c | c in Filter(Spent(w, job), candidates) ensures c in Enumerated(prs) && Because(w, job, prs, c, MaxAttemptsExceeded) {
      FilterKeeps(Spent(w, job), candidates, c);
      FilterKeeps(Wanted(w, job), Enumerated(prs), c);
    }
    ReasonsOf(w, job, prs, Filter(Spent(w, job), candidates), MaxAttemptsExceeded);
  }

  lemma BudgetedIsEnumerated(w: World, job: Job, prs: seq<Pr>, c: Candidate)
    requires c in Budgeted(w, job, prs)
    ensures c in Enumerated(prs)
  {
    FilterKeeps(InBudget(w, job), Sort(Older, Filter(Wanted(w, job), Enumerated(prs))), c);
    FilterKeeps(Wanted(w, job), Enumerated(prs), c);
  }

  lemma PostedRowsSayWhy(w: World, job: Job, prs: seq<Pr>)
    ensures forall row :: row in RowsFor(Filter(Posting(w), Window(w, job, prs)), ReviewAlreadyPosted) ==> HasReason(w, job, prs, row)
  {
    forall c | c in Filter(Posting(w), Window(w, job, prs)) ensures c in Enumerated(prs) && Because(w, job, prs, c, ReviewAlreadyPosted) {
      FilterKeeps(Posting(w), Window(w, job, prs), c);
      BudgetedIsEnumerated(w, job, prs, c);
    }
    ReasonsOf(w, job, prs, Filter(Posting(w), Window(w, job, prs)), ReviewAlreadyPosted);
  }

  lemma OverCapRowsSayWhy(w: World, job: Job, prs: seq<Pr>)
    ensures forall row :: row in RowsFor(Over(w, job, prs), OverCap) ==> HasReason(w, job, prs, row)
  {
    OldestAreDispatched(w, job, prs);
    forall c | c in Over(w, job, prs) ensures c in Enumerated(prs) && Because(w, job, prs, c, OverCap) {
      FilterKeeps(NotPosted(w), Window(w, job, prs), c);
      BudgetedIsEnumerated(w, job, prs, c);
    }
    ReasonsOf(w, job, prs, Over(w, job, prs), OverCap);
  }

  /** Every row of the report is of a target of the search, and gives a reason that holds of it. */
  lemma RowsSayWhy(w: World, job: Job, prs: seq<Pr>)
    ensures forall row :: row in RowsOf(w, job, prs) ==> HasReason(w, job, prs, row)
  {
    SkippedRowsSayWhy(w, job, prs);
    SpentRowsSayWhy(w, job, prs);
    PostedRowsSayWhy(w, job, prs);
    OverCapRowsSayWhy(w, job, prs);
  }

  // -- every target, exactly once ----------------------------------------------------------------------

  function RowKeys(rows: seq<Row>): seq<string> {
    if rows == [] then [] else RowKeys(rows[..|rows| - 1]) + [rows[|rows| - 1].key]
  }

  lemma {:induction false} RowKeysConcat(a: seq<Row>, b: seq<Row>)
    ensures RowKeys(a + b) == RowKeys(a) + RowKeys(b)
  {
    if b == [] {
      assert a + b == a;
    } else {
      assert (a + b)[..|a + b| - 1] == a + b[..|b| - 1];
      RowKeysConcat(a, b[..|b| - 1]);
    }
  }

  lemma {:induction false} RowsForKeys(cs: seq<Candidate>, why: Disposition)
    ensures RowKeys(RowsFor(cs, why)) == Keys(cs)
  {
    if cs != [] {
      RowsForKeys(cs[..|cs| - 1], why);
      var rows := RowsFor(cs[..|cs| - 1], why);
      assert (rows + [Row(cs[|cs| - 1].key, why)])[..|rows|] == rows;
    }
  }

  lemma {:induction false} ScanRowsKeys(cs: seq<Candidate>, w: World, job: Job)
    requires forall c :: c in cs ==> Unwanted(w, job)(c)
    ensures RowKeys(ScanRows(cs, w, job)) == Keys(cs)
  {
    if cs != [] {
      ScanRowsKeys(cs[..|cs| - 1], w, job);
      var rows := ScanRows(cs[..|cs| - 1], w, job);
      var c := cs[|cs| - 1];
      assert Unwanted(w, job)(c);
      var row := Row(c.key, SkipReason(c.pr, w.login, job.includeAutoBranches).value);
      assert (rows + [row])[..|rows|] == rows;
    }
  }

  lemma {:induction false} KeysConcat(a: seq<Candidate>, b: seq<Candidate>)
    ensures Keys(a + b) == Keys(a) + Keys(b)
  {
    if b == [] {
      assert a + b == a;
    } else {
      assert (a + b)[..|a + b| - 1] == a + b[..|b| - 1];
      KeysConcat(a, b[..|b| - 1]);
    }
  }

  lemma KeysWithout(cs: seq<Candidate>, k: nat)
    requires k < |cs|
    ensures multiset(Keys(cs)) == multiset(Keys(cs[..k] + cs[k + 1..])) + multiset{cs[k].key}
  {
    Snoc(cs, k);
    assert cs == cs[..k + 1] + cs[k + 1..];
    KeysConcat(cs[..k + 1], cs[k + 1..]);
    KeysConcat(cs[..k], cs[k + 1..]);
    assert Keys(cs[..k + 1]) == Keys(cs[..k]) + [cs[k].key];
  }

  /** Equal multisets of candidates have equal multisets of keys. */
  lemma {:induction false} KeysMultiset(a: seq<Candidate>, b: seq<Candidate>)
    requires multiset(a) == multiset(b)
    ensures multiset(Keys(a)) == multiset(Keys(b))
  {
    if a == [] {
      assert |b| == |multiset(b)| == 0;
    } else {
      var n := |a| - 1;
      var k := IndexOf(b, a[n]);
      RemoveAt(a, n);
      RemoveAt(b, k);
      assert a[..n] + a[n + 1..] == a[..n];
      Cancel(multiset(a[..n]), multiset(b[..k] + b[k + 1..]), multiset{a[n]});
      KeysMultiset(a[..n], b[..k] + b[k + 1..]);
      KeysWithout(b, k);
    }
  }

  lemma Cancel(a: multiset<Candidate>, b: multiset<Candidate>, c: multiset<Candidate>)
    requires a + c == b + c
    ensures a == b
  {
    assert a == a + c - c;
  }

  lemma IndexOf(cs: seq<Candidate>, c: Candidate) returns (k: nat)
    requires c in multiset(cs)
    ensures k < |cs| && cs[k] == c
  {
    k :| 0 <= k < |cs| && cs[k] == c;
  }

  lemma {:induction false} KeysPartition(p: Candidate -> bool, q: Candidate -> bool, cs: seq<Candidate>)
    requires forall i :: 0 <= i < |cs| ==> q(cs[i]) == !p(cs[i])
    ensures multiset(Keys(Filter(p, cs))) + multiset(Keys(Filter(q, cs))) == multiset(Keys(cs))
  {
    FilterPartition(p, q, cs);
    KeysConcat(Filter(p, cs), Filter(q, cs));
    KeysMultiset(Filter(p, cs) + Filter(q, cs), cs);
  }

  lemma SplitKeys(cs: seq<Candidate>, n: nat)
    requires n <= |cs|
    ensures multiset(Keys(cs[..n])) + multiset(Keys(cs[n..])) == multiset(Keys(cs))
  {
    assert cs == cs[..n] + cs[n..];
    KeysConcat(cs[..n], cs[n..]);
  }

  lemma ScanStageKeys(w: World, job: Job, prs: seq<Pr>)
    ensures var targets := Enumerated(prs);
            multiset(RowKeys(ScanRows(Sort(KeyLess, Filter(Unwanted(w, job), targets)), w, job)))
            + multiset(Keys(Sort(Older, Filter(Wanted(w, job), targets)))) == multiset(Keys(targets))
  {
    var targets := Enumerated(prs);
    var skipped, wanted := Filter(Unwanted(w, job), targets), Filter(Wanted(w, job), targets);
    KeysPartition(Unwanted(w, job), Wanted(w, job), targets);
    KeysMultiset(Sort(KeyLess, skipped), skipped);
    KeysMultiset(Sort(Older, wanted), wanted);
    forall c | c in Sort(KeyLess, skipped) ensures Unwanted(w, job)(c) {
      FilterKeeps(Unwanted(w, job), targets, c);
    }
    ScanRowsKeys(Sort(KeyLess, skipped), w, job);
  }

  lemma CapSums(posted: multiset<string>, kept: multiset<string>, beyond: multiset<string>, dispatched: multiset<string>,
                over: multiset<string>)
    requires dispatched + over == kept + beyond
    ensures posted + over + dispatched == posted + kept + beyond
  {
    assert posted + over + dispatched == posted + (dispatched + over);
  }

  lemma CapStageKeys(w: World, job: Job, budgeted: seq<Candidate>, window: seq<Candidate>, survivors: seq<Candidate>, n: nat, m: nat)
    requires n <= |budgeted| && window == budgeted[..n] && survivors == Filter(NotPosted(w), window) + budgeted[n..] && m <= |survivors|
    ensures multiset(Keys(Filter(Posting(w), window))) + multiset(Keys(survivors[m..])) + multiset(Keys(survivors[..m]))
            == multiset(Keys(budgeted))
  {
    SplitKeys(budgeted, n);
    KeysPartition(Posting(w), NotPosted(w), window);
    KeysConcat(Filter(NotPosted(w), window), budgeted[n..]);
    SplitKeys(survivors, m);
    CapSums(multiset(Keys(Filter(Posting(w), window))), multiset(Keys(Filter(NotPosted(w), window))),
            multiset(Keys(budgeted[n..])), multiset(Keys(survivors[..m])), multiset(Keys(survivors[m..])));
  }

  lemma StageSums(scan: multiset<string>, candidates: multiset<string>, spent: multiset<string>, budgeted: multiset<string>,
                  posted: multiset<string>, over: multiset<string>, dispatched: multiset<string>)
    requires spent + budgeted == candidates && posted + over + dispatched == budgeted
    ensures scan + spent + posted + over + dispatched == scan + candidates
  {
  }

  lemma RowKeysOf(w: World, job: Job, prs: seq<Pr>)
    ensures var targets := Enumerated(prs);
            multiset(RowKeys(RowsOf(w, job, prs)))
            == multiset(RowKeys(ScanRows(Sort(KeyLess, Filter(Unwanted(w, job), targets)), w, job)))
               + multiset(Keys(Filter(Spent(w, job), Sort(Older, Filter(Wanted(w, job), targets)))))
               + multiset(Keys(Filter(Posting(w), Window(w, job, prs)))) + multiset(Keys(Over(w, job, prs)))
  {
    var targets := Enumerated(prs);
    var scan := ScanRows(Sort(KeyLess, Filter(Unwanted(w, job), targets)), w, job);
    var spent := Filter(Spent(w, job), Sort(Older, Filter(Wanted(w, job), targets)));
    FourStages(scan, spent, Filter(Posting(w), Window(w, job, prs)), Over(w, job, prs));
  }

  lemma FourStages(scan: seq<Row>, spent: seq<Candidate>, posted: seq<Candidate>, over: seq<Candidate>)
    ensures RowKeys(scan + RowsFor(spent, MaxAttemptsExceeded) + RowsFor(posted, ReviewAlreadyPosted) + RowsFor(over, OverCap))
            == RowKeys(scan) + Keys(spent) + Keys(posted) + Keys(over)
  {
    RowsForKeys(spent, MaxAttemptsExceeded);
    RowsForKeys(posted, ReviewAlreadyPosted);
    RowsForKeys(over, OverCap);
    RowKeysConcat(scan, RowsFor(spent, MaxAttemptsExceeded));
    RowKeysConcat(scan + RowsFor(spent, MaxAttemptsExceeded), RowsFor(posted, ReviewAlreadyPosted));
    RowKeysConcat(scan + RowsFor(spent, MaxAttemptsExceeded) + RowsFor(posted, ReviewAlreadyPosted), RowsFor(over, OverCap));
  }

  lemma CapStage(w: World, job: Job, prs: seq<Pr>)
    ensures multiset(Keys(Filter(Posting(w), Window(w, job, prs)))) + multiset(Keys(Over(w, job, prs)))
            + multiset(Keys(Dispatchable(w, job, prs))) == multiset(Keys(Budgeted(w, job, prs)))
  {
    var budgeted, survivors := Budgeted(w, job, prs), Survivors(w, job, prs);
    CapStageKeys(w, job, budgeted, Window(w, job, prs), survivors, Least(job.maxTargets, |budgeted|), Least(job.maxTargets, |survivors|));
  }

  lemma BudgetStage(w: World, job: Job, candidates: seq<Candidate>)
    ensures multiset(Keys(Filter(Spent(w, job), candidates))) + multiset(Keys(Filter(InBudget(w, job), candidates)))
            == multiset(Keys(candidates))
  {
    KeysPartition(Spent(w, job), InBudget(w, job), candidates);
  }

  /** Every enumerated target appears exactly once across the rows and the dispatchable. */
  lemma EveryTargetOnce(w: World, job: Job, prs: seq<Pr>)
    ensures multiset(RowKeys(RowsOf(w, job, prs))) + multiset(Keys(Dispatchable(w, job, prs))) == multiset(Keys(Enumerated(prs)))
    ensures DistinctKeys(Enumerated(prs))
  {
    var candidates := Sort(Older, Filter(Wanted(w, job), Enumerated(prs)));
    EnumeratesOnce(prs);
    RowKeysOf(w, job, prs);
    ScanStageKeys(w, job, prs);
    BudgetStage(w, job, candidates);
    CapStage(w, job, prs);
    StageSums(multiset(RowKeys(ScanRows(Sort(KeyLess, Filter(Unwanted(w, job), Enumerated(prs))), w, job))),
              multiset(Keys(candidates)), multiset(Keys(Filter(Spent(w, job), candidates))), multiset(Keys(Budgeted(w, job, prs))),
              multiset(Keys(Filter(Posting(w), Window(w, job, prs)))), multiset(Keys(Over(w, job, prs))),
              multiset(Keys(Dispatchable(w, job, prs))));
  }

  // -- the marker past the window ----------------------------------------------------------------------

  /** How many candidates past the window move up because of marker skips inside it. */
  function Promoted(w: World, job: Job, prs: seq<Pr>): nat {
    Least(|Filter(Posting(w), Window(w, job, prs))|, |Beyond(w, job, prs)|)
  }

  /** The cap over the kept of a window and everything beyond it. */
  lemma CapPromotes(kept: seq<Candidate>, posted: nat, beyond: seq<Candidate>, maxTargets: nat)
    requires |kept| + posted <= maxTargets && (beyond != [] ==> |kept| + posted == maxTargets)
    ensures var s := kept + beyond;
            s[..Least(maxTargets, |s|)] == kept + beyond[..Least(posted, |beyond|)]
  {
  }

  lemma NoneMarked(w: World, kept: seq<Candidate>, more: seq<Candidate>)
    requires forall i :: 0 <= i < |kept| ==> !Marked(w, kept[i])
    ensures (forall i :: 0 <= i < |kept + more| ==> !Marked(w, (kept + more)[i])) <==> (forall i :: 0 <= i < |more| ==> !Marked(w, more[i]))
  {
    forall i | 0 <= i < |more| ensures (kept + more)[|kept| + i] == more[i] {
    }
  }

  /** No marked PR is dispatched exactly when none of those promoted from past the window is marked: the guard looks
      at the window only. */
  lemma MarkedIsDispatchedOnlyByPromotion(w: World, job: Job, prs: seq<Pr>)
    ensures Promoted(w, job, prs) <= |Beyond(w, job, prs)|
    ensures var d, promoted := Dispatchable(w, job, prs), Beyond(w, job, prs)[..Promoted(w, job, prs)];
            && d == Filter(NotPosted(w), Window(w, job, prs)) + promoted
            && ((forall i :: 0 <= i < |d| ==> !Marked(w, d[i])) <==> (forall i :: 0 <= i < |promoted| ==> !Marked(w, promoted[i])))
  {
    var window := Window(w, job, prs);
    var kept, posted := Filter(NotPosted(w), window), Filter(Posting(w), window);
    FilterPartition(Posting(w), NotPosted(w), window);
    assert |multiset(posted) + multiset(kept)| == |posted| + |kept| == |window|;
    CapPromotes(kept, |posted|, Beyond(w, job, prs), job.maxTargets);
    forall i | 0 <= i < |kept| ensures !Marked(w, kept[i]) {
      FilterKeeps(NotPosted(w), window, kept[i]);
    }
    NoneMarked(w, kept, Beyond(w, job, prs)[..Promoted(w, job, prs)]);
  }

  lemma EnumeratedTwo(a: Pr, b: Pr)
    requires a.number > 0 && b.number > 0 && KeyOf(a) != KeyOf(b)
    ensures Enumerated([a, b]) == [Candidate(KeyOf(a), a), Candidate(KeyOf(b), b)]
  {
    assert [a, b][..1] == [a] && [a][..0] == [];
    assert Enumerated([a]) == [Candidate(KeyOf(a), a)];
    KeysOf(Enumerated([a]));
  }

  lemma FilterBoth<T>(p: T -> bool, x: T, y: T)
    requires p(x) && p(y)
    ensures Filter(p, [x, y]) == [x, y] && Filter(p, [x]) == [x]
  {
    FilterStep(p, [], x);
    FilterStep(p, [x], y);
    assert [] + [x] == [x] && [x] + [y] == [x, y];
  }

  lemma FilterNone<T>(p: T -> bool, x: T)
    requires !p(x)
    ensures Filter(p, [x]) == []
  {
    FilterStep(p, [], x);
    assert [] + [x] == [x];
  }

  lemma SortedTwo(older: Candidate, newer: Candidate)
    requires !Older(newer, older)
    ensures Sort(Older, [older, newer]) == [older, newer]
  {
    assert [older, newer][1..] == [newer] && [newer][1..] == [];
    assert Sort(Older, [newer]) == [newer];
  }

  /** With room for one, the older of two PRs already reviewed is skipped for its marker, and the newer, as marked, is
      dispatched in its place. */
  lemma MarkedMovesUp(w: World, job: Job, a: Pr, b: Pr)
    requires a.number > 0 && b.number > 0 && KeyOf(a) != KeyOf(b) && job.maxTargets == 1
    requires Wanted(w, job)(Candidate(KeyOf(a), a)) && Wanted(w, job)(Candidate(KeyOf(b), b))
    requires InBudget(w, job)(Candidate(KeyOf(a), a)) && InBudget(w, job)(Candidate(KeyOf(b), b))
    requires Marked(w, Candidate(KeyOf(a), a)) && !Older(Candidate(KeyOf(b), b), Candidate(KeyOf(a), a))
    ensures Dispatchable(w, job, [a, b]) == [Candidate(KeyOf(b), b)]
  {
    var older, newer := Candidate(KeyOf(a), a), Candidate(KeyOf(b), b);
    EnumeratedTwo(a, b);
    FilterBoth(Wanted(w, job), older, newer);
    SortedTwo(older, newer);
    FilterBoth(InBudget(w, job), older, newer);
    assert Window(w, job, [a, b]) == [older] && Beyond(w, job, [a, b]) == [newer];
    FilterNone(NotPosted(w), older);
  }

  function PrAt(number: int, createdAt: string): Pr {
    Pr("o/r", number, createdAt, "", "topic", Some("me"), Some("o/r"), "author")
  }

  /** Such PRs: both carry the marker, and one is dispatched. */
  lemma MarkedIsDispatched() returns (w: World, job: Job, prs: seq<Pr>)
    ensures var d := Dispatchable(w, job, prs);
            |d| == 1 && Marked(w, d[0])
  {
    var posted := [Posted(Some("bot"), "reviewed")];
    job := Job("review", false, 1, 1);
    prs := [PrAt(1, "a"), PrAt(2, "b")];
    w := World("me", Some(prs), [], key => Some(posted), login => true, key => "reviewed");
    assert posted[0] in posted && HasTrustedMarker(w, posted, "reviewed");
    assert "auto/"[0] != "topic"[0];
    assert KeyOf(prs[0])[4] == '1' && KeyOf(prs[1])[4] == '2';
    assert !Older(Candidate(KeyOf(prs[1]), prs[1]), Candidate(KeyOf(prs[0]), prs[0])) by {
      StringLessTotal("a", "b");
      assert StringLess("a", "b");
    }
    MarkedMovesUp(w, job, prs[0], prs[1]);
    assert prs == [prs[0], prs[1]];
  }

  // -- what the tick does with the dispatchable -----------------------------------------------------------

  /** How the run of one target goes: not at all, when its repository could not be checked out or the tick died before;
      or to one of its ends, `DiesRunning` a death while the agent runs. */
  datatype TargetRun = NotReached | AgentLive | WorktreeFailed | DiesRunning | Settled(state: State, reason: string)

  function TargetRecord(job: Job, key: string, runId: string, now: int, state: State, reason: Json): Record {
    Record(now, job.name, state, Some(runId), map["target_key" := JStr(key), "reason" := reason])
  }

  function RecordsOf(job: Job, key: string, run: TargetRun, runId: string, now: int): seq<Record> {
    var running := TargetRecord(job, key, runId, now, Running, JNull);
    match run
    case NotReached => []
    case AgentLive => [TargetRecord(job, key, runId, now, Skipped, JStr("agent_live"))]
    case WorktreeFailed => [TargetRecord(job, key, runId, now, Failed, JStr("worktree_failed"))]
    case DiesRunning => [running]
    case Settled(state, reason) => [running, TargetRecord(job, key, runId, now, state, if state == Done then JNull else JStr(reason))]
  }

  /** The runs of one occurrence, one after the other. */
  function RunAll(job: Job, order: seq<Candidate>, runs: seq<TargetRun>, runId: string, now: int): seq<Record>
    requires |runs| == |order|
  {
    if order == [] then []
    else
      var n := |order| - 1;
      RunAll(job, order[..n], runs[..n], runId, now) + RecordsOf(job, order[n].key, runs[n], runId, now)
  }

  lemma {:induction false} AttemptsAdd(a: seq<Record>, b: seq<Record>, key: string)
    ensures AttemptCount(a + b, key) == AttemptCount(a, key) + AttemptCount(b, key)
  {
    if b == [] {
      assert a + b == a;
    } else {
      assert (a + b)[..|a + b| - 1] == a + b[..|b| - 1];
      AttemptsAdd(a, b[..|b| - 1], key);
    }
  }

  lemma OneRecord(r: Record, key: string)
    ensures AttemptCount([r], key) == if CountsFor(r, key) then 1 else 0
  {
    assert [r][..0] == [];
  }

  lemma WorktreeFailureIsFree()
    ensures !AttemptConsumed(Failed, JStr("worktree_failed"))
  {
    assert "worktree_failed"[0] == 'w' && "unsettled_status_"[0] == 'u';
    assert forall text :: text in COUNTABLE ==> text[0] != 'w';
  }

  /** A run consumes at most one attempt, of its own target, and only by getting as far as an agent that settled. */
  lemma RunConsumesOne(job: Job, target: string, run: TargetRun, runId: string, now: int, key: string)
    ensures AttemptCount(RecordsOf(job, target, run, runId, now), key) <= if key == target && run.Settled? then 1 else 0
  {
    var rs := RecordsOf(job, target, run, runId, now);
    match run
    case NotReached =>
    case AgentLive => OneRecord(rs[0], key);
    case WorktreeFailed =>
      OneRecord(rs[0], key);
      WorktreeFailureIsFree();
    case DiesRunning => OneRecord(rs[0], key);
    case Settled(_, _) =>
      OneRecord(rs[0], key);
      OneRecord(rs[1], key);
      AttemptsAdd([rs[0]], [rs[1]], key);
      assert rs == [rs[0]] + [rs[1]];
  }

  lemma {:induction false} RunsConsumeOneEach(job: Job, order: seq<Candidate>, runs: seq<TargetRun>, runId: string, now: int, key: string)
    requires |runs| == |order|
    ensures AttemptCount(RunAll(job, order, runs, runId, now), key) <= multiset(Keys(order))[key]
  {
    if order != [] {
      var n := |order| - 1;
      RunsConsumeOneEach(job, order[..n], runs[..n], runId, now, key);
      RunConsumesOne(job, order[n].key, runs[n], runId, now, key);
      AttemptsAdd(RunAll(job, order[..n], runs[..n], runId, now), RecordsOf(job, order[n].key, runs[n], runId, now), key);
    }
  }

  lemma {:induction false} KeyOnce(cs: seq<Candidate>, key: string)
    requires DistinctKeys(cs)
    ensures multiset(Keys(cs))[key] <= 1
  {
    if cs != [] {
      var n := |cs| - 1;
      KeyOnce(cs[..n], key);
      KeysOf(cs[..n]);
      if key == cs[n].key {
        assert key !in Keys(cs[..n]);
      }
    }
  }

  // -- attempts over many cycles ------------------------------------------------------------------------

  /** One occurrence: what the selector saw, the order its targets ran in, how each run went, and the records without
      a target that the tick and others write around them. */
  datatype Cycle = Cycle(w: World, order: seq<Candidate>, runs: seq<TargetRun>, before: seq<Record>, rest: seq<Record>,
                         runId: string, now: int)

  predicate Keyless(records: seq<Record>) {
    forall i :: 0 <= i < |records| ==> !Field(records[i].extra, "target_key").JStr?
  }

  /** Every dispatchable target gets one run, in the order of their repositories; none after a failed search. */
  ghost predicate Proper(job: Job, cycle: Cycle) {
    && |cycle.runs| == |cycle.order| && Keyless(cycle.before) && Keyless(cycle.rest)
    && multiset(cycle.order) == if cycle.w.prs.Some? then multiset(Dispatchable(cycle.w, job, cycle.w.prs.value)) else multiset{}
  }

  function RecordsAfter(job: Job, cycle: Cycle): seq<Record>
    requires |cycle.runs| == |cycle.order|
  {
    cycle.w.records + cycle.before + RunAll(job, cycle.order, cycle.runs, cycle.runId, cycle.now) + cycle.rest
  }

  ghost predicate Cycles(job: Job, cycles: seq<Cycle>) {
    && (forall i :: 0 <= i < |cycles| ==> Proper(job, cycles[i]))
    && forall i {:trigger cycles[i]} :: 0 <= i < |cycles| - 1 ==> cycles[i + 1].w.records == RecordsAfter(job, cycles[i])
  }

  lemma {:induction false} KeylessIsFree(records: seq<Record>, key: string)
    requires Keyless(records)
    ensures AttemptCount(records, key) == 0
  {
    if records != [] {
      KeylessIsFree(records[..|records| - 1], key);
    }
  }

  lemma CycleAdds(job: Job, cycle: Cycle, key: string)
    requires Proper(job, cycle)
    ensures AttemptCount(RecordsAfter(job, cycle), key) ==
            AttemptCount(cycle.w.records, key) + AttemptCount(RunAll(job, cycle.order, cycle.runs, cycle.runId, cycle.now), key)
  {
    var ran := RunAll(job, cycle.order, cycle.runs, cycle.runId, cycle.now);
    AttemptsAdd(cycle.w.records + cycle.before + ran, cycle.rest, key);
    AttemptsAdd(cycle.w.records + cycle.before, ran, key);
    AttemptsAdd(cycle.w.records, cycle.before, key);
    KeylessIsFree(cycle.before, key);
    KeylessIsFree(cycle.rest, key);
  }

  lemma DispatchesKeyOnce(w: World, job: Job, prs: seq<Pr>, key: string)
    ensures multiset(Keys(Dispatchable(w, job, prs)))[key] <= 1
  {
    EveryTargetOnce(w, job, prs);
    KeyOnce(Enumerated(prs), key);
  }

  /** A cycle consumes at most one attempt of a target, and none of one that was not in budget. */
  lemma CycleConsumes(job: Job, cycle: Cycle, key: string)
    requires Proper(job, cycle)
    ensures var n, m := AttemptCount(cycle.w.records, key), AttemptCount(RecordsAfter(job, cycle), key);
            n <= m <= n + if n < job.maxAttempts then 1 else 0
  {
    CycleAdds(job, cycle, key);
    RunsConsumeOneEach(job, cycle.order, cycle.runs, cycle.runId, cycle.now, key);
    if cycle.w.prs.None? {
      assert cycle.order == [];
    } else {
      var d := Dispatchable(cycle.w, job, cycle.w.prs.value);
      KeysMultiset(cycle.order, d);
      DispatchesKeyOnce(cycle.w, job, cycle.w.prs.value, key);
      if key in Keys(d) {
        DispatchesInBudget(cycle.w, job, cycle.w.prs.value, key);
      }
    }
  }

  lemma DispatchesInBudget(w: World, job: Job, prs: seq<Pr>, key: string)
    requires key in Keys(Dispatchable(w, job, prs))
    ensures AttemptCount(w.records, key) < job.maxAttempts
  {
    var d := Dispatchable(w, job, prs);
    KeysOf(d);
    var k :| 0 <= k < |d| && d[k].key == key;
    DispatchedIsEligible(w, job, prs, d[k]);
  }

  /** Over any number of cycles, whatever dies in them, no target consumes more attempts than its budget, and none is
      ever given back. */
  lemma {:induction false} AttemptsStayWithinBudget(job: Job, key: string, cycles: seq<Cycle>)
    requires cycles != [] && Cycles(job, cycles)
    requires AttemptCount(cycles[0].w.records, key) <= job.maxAttempts
    ensures AttemptCount(cycles[0].w.records, key) <= AttemptCount(RecordsAfter(job, cycles[|cycles| - 1]), key) <= job.maxAttempts
  {
    var n := |cycles| - 1;
    if n > 0 {
      var front := cycles[..n];
      assert forall k :: 0 <= k < |front| ==> front[k] == cycles[k];
      AttemptsStayWithinBudget(job, key, front);
      assert cycles[n].w.records == RecordsAfter(job, front[n - 1]);
    }
    CycleConsumes(job, cycles[n], key);
  }
}
