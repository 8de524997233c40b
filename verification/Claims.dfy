/** The claim store and the pick under its lock (`claims.py`, `pick_feature.py`). */
module Claims {
  import opened Common

  datatype Issue = Issue(id: string, status: string, priority: string)

  /** The claims by issue id, each with the time it was made (microseconds). */
  type Held = map<string, int>

  datatype Store = Missing | Good(held: Held) | Corrupt

  /** `load_claims`: missing and corrupt both read as empty. */
  function Load(store: Store): Held {
    if store.Good? then store.held else map[]
  }

  /** The outside world as one pick sees it. `openPrs` is None when the query failed; `toInt` is Python's `int`. */
  datatype World = World(
    now: int,                     // when stale claims are judged
    claimNow: int,                // when the new claim is stamped
    issues: seq<Issue>,
    openPrs: Option<set<int>>,
    inflight: set<string>,
    pipelinePrs: Option<set<int>>,
    toInt: string -> Option<int>)

  const LEASE := 12 * 3600 * 1_000_000

  // -- select_next ------------------------------------------------------------------------

  function Rank(priority: string): int {
    if priority == "high" then 0 else if priority == "medium" then 1 else if priority == "low" then 2 else 3
  }

  predicate Before(a: Issue, b: Issue) {
    Rank(a.priority) < Rank(b.priority) || (Rank(a.priority) == Rank(b.priority) && StringLess(a.id, b.id))
  }

  /** Open, unclaimed, and not behind an open pipeline PR; an id that is no number matches no PR. */
  predicate Eligible(issue: Issue, claimed: set<string>, w: World) {
    && issue.status == "open" && issue.id !in claimed
    && !(w.toInt(issue.id).Some? && w.pipelinePrs.Some? && w.toInt(issue.id).value in w.pipelinePrs.value)
  }

  /** `select_next` on the first `n` issues. */
  function SelectAmong(issues: seq<Issue>, claimed: set<string>, w: World): Option<Issue> {
    if issues == [] then None
    else
      var best := SelectAmong(issues[..|issues| - 1], claimed, w);
      var last := issues[|issues| - 1];
      if Eligible(last, claimed, w) && (best.None? || Before(last, best.value)) then Some(last) else best
  }

  lemma BeforeTransitive(a: Issue, b: Issue, c: Issue)
    requires Before(a, b) && !Before(c, b)
    ensures !Before(c, a)
  {
    if Before(c, a) && Rank(a.priority) == Rank(b.priority) && Rank(c.priority) == Rank(a.priority) {
      StringLessTransitive(c.id, a.id, b.id);
    }
  }

  /** The highest-priority, lowest-id eligible issue; none exactly when no issue is eligible. */
  lemma {:induction false} SelectsTheBest(issues: seq<Issue>, claimed: set<string>, w: World)
    ensures var best := SelectAmong(issues, claimed, w);
            && (best.None? <==> forall i :: 0 <= i < |issues| ==> !Eligible(issues[i], claimed, w))
            && (best.Some? ==>
                  && best.value in issues && Eligible(best.value, claimed, w)
                  && forall i :: 0 <= i < |issues| && Eligible(issues[i], claimed, w) ==> !Before(issues[i], best.value))
  {
    if issues != [] {
      var n := |issues| - 1;
      var best, last := SelectAmong(issues[..n], claimed, w), issues[n];
      SelectsTheBest(issues[..n], claimed, w);
      StringLessTotal(last.id, last.id);
      if best.Some? && Eligible(last, claimed, w) && Before(last, best.value) {
        forall i | 0 <= i < n && Eligible(issues[i], claimed, w) ensures !Before(issues[i], last) {
          assert issues[..n][i] == issues[i];
          BeforeTransitive(last, best.value, issues[i]);
        }
      }
      assert forall i :: 0 <= i < n ==> issues[..n][i] == issues[i];
    }
  }

  // -- reclaim_stale_claims -------------------------------------------------------------------

  predicate Stale(claimedAt: int, w: World) {
    w.now - claimedAt >= LEASE
  }

  /** Past its lease, with an answered PR query naming it nowhere, and no run in flight for it. */
  predicate Releasable(id: string, claimedAt: int, w: World) {
    && Stale(claimedAt, w) && w.openPrs.Some?
    && w.toInt(id).Some? && w.toInt(id).value !in w.openPrs.value && id !in w.inflight
  }

  /** `int(issue_id)` raises on a stale id that is no number, and takes the whole transaction with it. */
  predicate Raises(held: Held, w: World) {
    w.openPrs.Some? && exists id :: id in held && Stale(held[id], w) && w.toInt(id).None?
  }

  function Released(held: Held, w: World): Held {
    map id | id in held && Releasable(id, held[id], w) :: held[id]
  }

  function Kept(held: Held, w: World): Held {
    held - Released(held, w).Keys
  }

  function Picked(held: Held, w: World): Option<Issue> {
    SelectAmong(w.issues, Kept(held, w).Keys, w)
  }

  /** The claims a whole locked transaction leaves. */
  function Committed(held: Held, w: World): Held {
    if Raises(held, w) then held
    else if Picked(held, w).Some? then Kept(held, w)[Picked(held, w).value.id := w.claimNow]
    else Kept(held, w)
  }

  datatype Outcome = Raised | Nothing | Pick(issue: Issue)

  function OutcomeOf(held: Held, w: World): Outcome {
    if Raises(held, w) then Raised
    else if Picked(held, w).Some? then Pick(Picked(held, w).value)
    else Nothing
  }

  /** The dict a transaction works on. */
  class Claims {
    var held: Held

    constructor (held: Held)
      ensures this.held == held
    {
      this.held := held;
    }

    /** `reclaim_stale_claims`: deletes in place; None when it raises. */
    method ReclaimStale(w: World) returns (reclaimed: Option<Held>)
      modifies this
      ensures reclaimed.None? <==> Raises(old(held), w)
      ensures reclaimed.None? <==>
                w.openPrs.Some? && exists id :: id in old(held) && w.now - old(held)[id] >= 12 * 3600 * 1_000_000 && w.toInt(id).None?
      ensures reclaimed.Some? ==> forall id :: id in reclaimed.value <==>
                && id in old(held) && w.now - old(held)[id] >= 12 * 3600 * 1_000_000
                && w.openPrs.Some? && w.toInt(id).Some? && w.toInt(id).value !in w.openPrs.value && id !in w.inflight
      ensures reclaimed.Some? ==> forall id :: id in held <==> id in old(held) && id !in reclaimed.value
      ensures reclaimed.Some? ==> forall id :: id in held ==> held[id] == old(held)[id]
      ensures reclaimed.Some? ==> reclaimed.value == Released(old(held), w) && held == Kept(old(held), w)
    {
      ghost var before := held;
      var stale := map id | id in held && Stale(held[id], w) :: held[id];
      if stale == map[] {
        assert forall id :: id in held ==> id !in stale;
        return Some(map[]);
      }
      if w.openPrs.None? {
        return Some(map[]);
      }
      var released: Held := map[];
      var todo := stale.Keys;
      while todo != {}
        invariant todo <= stale.Keys
        invariant forall id :: id in stale && id !in todo ==> w.toInt(id).Some?
        invariant released == map id | id in stale && id !in todo && Releasable(id, stale[id], w) :: stale[id]
        invariant held == before - released.Keys
      {
        var id :| id in todo;
        todo := todo - {id};
        if w.toInt(id).None? {
          return None;
        }
        if w.toInt(id).value in w.openPrs.value || id in w.inflight {
          continue;
        }
        held := held - {id};
        released := released[id := stale[id]];
      }
      reclaimed := Some(released);
    }
  }

  /** The file, and the pick made under its lock. */
  class ClaimsFile {
    var store: Store

    /** `select_and_claim_feature`. Marked: reclaim, select and claim as one transaction, a corrupt store moved
        aside; saved only if something changed and nothing raised. Unmarked: a look, nothing written. */
    method SelectAndClaim(mark: bool, w: World) returns (o: Outcome)
      modifies this
      ensures !mark ==> store == old(store)
      ensures !mark ==> o == (var best := SelectAmong(w.issues, Load(store).Keys, w); if best.Some? then Pick(best.value) else Nothing)
      ensures mark ==> o == OutcomeOf(old(Load(store)), w) && Load(store) == Committed(old(Load(store)), w)
      ensures mark && o.Pick? ==> o.issue in w.issues && Choosable(old(Load(store)), w, o.issue)
      ensures !mark && o.Pick? ==> o.issue in w.issues && o.issue.status == "open" && o.issue.id !in Load(store)
      ensures mark ==> !store.Corrupt? && (store.Missing? ==> !old(store).Good?)
    {
      if OutcomeOf(Load(store), w).Pick? {
        PickMeans(Load(store), w, OutcomeOf(Load(store), w).issue);
      }
      if !mark {
        var best := SelectAmong(w.issues, Load(store).Keys, w);
        SelectsTheBest(w.issues, Load(store).Keys, w);
        return if best.Some? then Pick(best.value) else Nothing;
      }
      if store.Corrupt? {
        store := Missing;
      }
      var before := Load(store);
      var claims := new Claims(before);
      var reclaimed := claims.ReclaimStale(w);
      if reclaimed.None? {
        return Raised;
      }
      var picked := SelectAmong(w.issues, claims.held.Keys, w);
      o := Nothing;
      if picked.Some? {
        claims.held := claims.held[picked.value.id := w.claimNow];
        o := Pick(picked.value);
      }
      if claims.held != before {
        store := Good(claims.held);
      }
    }
  }

  // -- several pickers at once ------------------------------------------------------------------

  /** Where one process stands in `locked_claims`. */
  datatype Pc = Outside | Locked | Loaded(before: Held) | Ready(before: Held, w: World) | Saved

  datatype System = System(store: Store, lock: Option<nat>, pcs: map<nat, Pc>)

  function PcOf(s: System, p: nat): Pc {
    if p in s.pcs then s.pcs[p] else Outside
  }

  datatype Event =
    | Acquire(p: nat)
    | Read(p: nat)                // quarantines a corrupt store
    | Decide(p: nat, w: World)
    | Save(p: nat)                // tmp file and rename, if anything changed
    | Leave(p: nat)               // normally, or by the exception
    | Crash(p: nat)               // at any point, or a save that fails; the lock goes with the process
    | Damage                      // a hand edit or truncation

  predicate Enabled(s: System, e: Event) {
    match e
    case Acquire(p) => s.lock.None? && PcOf(s, p).Outside?
    case Read(p) => PcOf(s, p).Locked?
    case Decide(p, w) => PcOf(s, p).Loaded?
    case Save(p) => PcOf(s, p).Ready? && !Raises(PcOf(s, p).before, PcOf(s, p).w)
    case Leave(p) => PcOf(s, p).Saved? || (PcOf(s, p).Ready? && Raises(PcOf(s, p).before, PcOf(s, p).w))
    case Crash(p) => true
    case Damage => true
  }

  function Next(s: System, e: Event): System
    requires Enabled(s, e)
  {
    match e
    case Acquire(p) => s.(lock := Some(p), pcs := s.pcs[p := Locked])
    case Read(p) => s.(store := if s.store.Corrupt? then Missing else s.store, pcs := s.pcs[p := Loaded(Load(s.store))])
    case Decide(p, w) => s.(pcs := s.pcs[p := Ready(PcOf(s, p).before, w)])
    case Save(p) =>
      var pc := PcOf(s, p);
      var held := Committed(pc.before, pc.w);
      s.(store := if held != pc.before then Good(held) else s.store, pcs := s.pcs[p := Saved])
    case Leave(p) => s.(lock := None, pcs := s.pcs[p := Outside])
    case Crash(p) => s.(lock := if s.lock == Some(p) then None else s.lock, pcs := s.pcs[p := Outside])
    case Damage => s.(store := Corrupt)
  }

  const IDLE := System(Missing, None, map[])

  /** The system after a trace; None once an event was not enabled. */
  function After(events: seq<Event>): Option<System> {
    if events == [] then Some(IDLE)
    else
      var s := After(events[..|events| - 1]);
      var e := events[|events| - 1];
      if s.Some? && Enabled(s.value, e) then Some(Next(s.value, e)) else None
  }

  /** The worlds of the transactions saved so far, in the order of their saves. */
  function LogOf(events: seq<Event>): seq<World>
    requires After(events).Some?
  {
    if events == [] then []
    else
      var e := events[|events| - 1];
      LogOf(events[..|events| - 1])
      + if e.Save? then [PcOf(After(events[..|events| - 1]).value, e.p).w] else []
  }

  /** The claims after one transaction after the other, with nobody else around. */
  function Serial(log: seq<World>): Held {
    if log == [] then map[] else Committed(Serial(log[..|log| - 1]), log[|log| - 1])
  }

  /** Whoever is inside holds the lock, and what it read is still what the store says. */
  ghost predicate Exclusive(s: System) {
    && !s.store.Corrupt?
    && (forall p: nat :: !PcOf(s, p).Outside? ==> s.lock == Some(p))
    && (forall p: nat :: PcOf(s, p).Loaded? || PcOf(s, p).Ready? ==> PcOf(s, p).before == Load(s.store))
  }

  lemma ExclusiveStep(s: System, e: Event)
    requires Exclusive(s) && Enabled(s, e) && !e.Damage?
    ensures Exclusive(Next(s, e))
    ensures Load(Next(s, e).store) == if e.Save? then Committed(Load(s.store), PcOf(s, e.p).w) else Load(s.store)
  {
    var t := Next(s, e);
    assert forall p: nat :: p != e.p ==> PcOf(t, p) == PcOf(s, p);
  }

  predicate Undamaged(events: seq<Event>) {
    forall i :: 0 <= i < |events| ==> !events[i].Damage?
  }

  /** Whatever the interleaving and the crashes, the pickers run one at a time: at every moment the store, as any
      reader without the lock sees it, is what the saved transactions leave when run one after the other. */
  lemma {:induction false} Serializable(events: seq<Event>)
    requires After(events).Some? && Undamaged(events)
    ensures Exclusive(After(events).value)
    ensures Load(After(events).value.store) == Serial(LogOf(events))
  {
    if events != [] {
      var n := |events| - 1;
      Serializable(events[..n]);
      ExclusiveStep(After(events[..n]).value, events[n]);
      var before, log := LogOf(events[..n]), LogOf(events);
      if events[n].Save? {
        assert log[..|log| - 1] == before;
      } else {
        assert log == before;
      }
    }
  }

  /** Transaction `i` of the log picks the issue `id`. */
  predicate Picks(log: seq<World>, i: nat, id: string)
    requires i < |log|
  {
    var o := OutcomeOf(Serial(log[..i]), log[i]);
    o.Pick? && o.issue.id == id
  }

  /** Transaction `k` releases the claim on `id` made at `claimedAt`: late enough, with the PR query answered, and
      neither an open PR nor a run in flight for it. */
  predicate Releases(log: seq<World>, k: nat, id: string, claimedAt: int)
    requires k < |log|
  {
    var held := Serial(log[..k]);
    id in held && held[id] == claimedAt && Releasable(id, claimedAt, log[k]) && !Raises(held, log[k])
  }

  lemma {:induction false} HeldUntilReleased(log: seq<World>, i: nat, m: nat, id: string)
    requires i < m <= |log| && Picks(log, i, id)
    requires forall k :: i < k < m ==> !Releases(log, k, id, log[i].claimNow)
    ensures id in Serial(log[..m]) && Serial(log[..m])[id] == log[i].claimNow
    decreases m
  {
    assert log[..m][..m - 1] == log[..m - 1];
    if i < m - 1 {
      HeldUntilReleased(log, i, m - 1, id);
      SelectsTheBest(log[m - 1].issues, Kept(Serial(log[..m - 1]), log[m - 1]).Keys, log[m - 1]);
      assert !Releases(log, m - 1, id, log[i].claimNow);
    } else {
      PickedIsUnclaimed(log, i, id);
    }
  }

  lemma PicksNeedARelease(log: seq<World>, i: nat, j: nat, id: string)
    requires i < j < |log| && Picks(log, i, id) && Picks(log, j, id)
    ensures exists k :: i < k <= j && Releases(log, k, id, log[i].claimNow)
  {
    if forall k :: i < k < j ==> !Releases(log, k, id, log[i].claimNow) {
      HeldUntilReleased(log, i, j, id);
      SelectsTheBest(log[j].issues, Kept(Serial(log[..j]), log[j]).Keys, log[j]);
      assert Releases(log, j, id, log[i].claimNow);
    }
  }

  /** Two picks of the same issue are always separated by a transaction at least twelve hours after the first, whose PR
      query was answered without a PR for it, and for which no run of it was in flight. */
  lemma PicksAreSeparatedByARelease(log: seq<World>, i: nat, j: nat, id: string)
    requires i < j < |log| && Picks(log, i, id) && Picks(log, j, id)
    ensures exists k :: i < k <= j
                        && log[k].now - log[i].claimNow >= 12 * 3600 * 1_000_000
                        && log[k].openPrs.Some? && log[k].toInt(id).Some? && log[k].toInt(id).value !in log[k].openPrs.value
                        && id !in log[k].inflight
  {
    PicksNeedARelease(log, i, j, id);
    var k :| i < k <= j && Releases(log, k, id, log[i].claimNow);
  }

  /** Which issue a transaction picks: one that is open, unclaimed or released by it, and behind no open pipeline PR; and of
      these none has a higher priority, or the same and a lower id. */
  lemma PickMeans(held: Held, w: World, issue: Issue)
    requires OutcomeOf(held, w) == Pick(issue)
    ensures issue in w.issues && Choosable(held, w, issue)
    ensures forall other :: other in w.issues && Choosable(held, w, other) ==>
              && PriorityIndex(issue.priority) <= PriorityIndex(other.priority)
              && (PriorityIndex(issue.priority) == PriorityIndex(other.priority) ==> !StringLess(other.id, issue.id))
  {
    SelectsTheBest(w.issues, Kept(held, w).Keys, w);
    forall other | other in w.issues && Choosable(held, w, other)
      ensures PriorityIndex(issue.priority) <= PriorityIndex(other.priority)
      ensures PriorityIndex(issue.priority) == PriorityIndex(other.priority) ==> !StringLess(other.id, issue.id)
    {
      var i :| 0 <= i < |w.issues| && w.issues[i] == other;
      assert Eligible(w.issues[i], Kept(held, w).Keys, w);
    }
  }

  /** And when it picks none though nothing raised, there is no such issue. */
  lemma NothingMeans(held: Held, w: World, issue: Issue)
    requires OutcomeOf(held, w) == Nothing && issue in w.issues
    ensures !Choosable(held, w, issue)
  {
    SelectsTheBest(w.issues, Kept(held, w).Keys, w);
    var i :| 0 <= i < |w.issues| && w.issues[i] == issue;
  }

  predicate Choosable(held: Held, w: World, issue: Issue) {
    && issue.status == "open"
    && (issue.id in held ==>
          && w.now - held[issue.id] >= 12 * 3600 * 1_000_000 && w.openPrs.Some?
          && w.toInt(issue.id).Some? && w.toInt(issue.id).value !in w.openPrs.value && issue.id !in w.inflight)
    && (w.pipelinePrs.Some? && w.toInt(issue.id).Some? ==> w.toInt(issue.id).value !in w.pipelinePrs.value)
  }

  /** high, medium, low, anything else. */
  function PriorityIndex(priority: string): nat {
    match priority
    case "high" => 0
    case "medium" => 1
    case "low" => 2
    case _ => 3
  }

  /** A picked issue is claimed by nobody else at that moment. */
  lemma PickedIsUnclaimed(log: seq<World>, i: nat, id: string)
    requires i < |log| && Picks(log, i, id)
    ensures id !in Kept(Serial(log[..i]), log[i])
    ensures Serial(log[..i + 1]) == Kept(Serial(log[..i]), log[i])[id := log[i].claimNow]
  {
    SelectsTheBest(log[i].issues, Kept(Serial(log[..i]), log[i]).Keys, log[i]);
    assert log[..i + 1][..i] == log[..i];
  }

  /** One stale claim whose id is no number stops every later pick for good, as long as the PR query answers. */
  lemma {:induction false} UnparsableClaimBlocksPicking(held: Held, id: string, later: seq<World>)
    requires id in held
    requires forall i :: 0 <= i < |later| ==>
      later[i].now - held[id] >= LEASE && later[i].toInt(id).None? && later[i].openPrs.Some?
    ensures forall i :: 0 <= i < |later| ==> OutcomeOf(held, later[i]) == Raised && Committed(held, later[i]) == held
  {
    forall i | 0 <= i < |later| ensures Raises(held, later[i]) {
      assert Stale(held[id], later[i]) && later[i].toInt(id).None?;
    }
  }

  lemma Extend(events: seq<Event>, e: Event)
    requires After(events).Some? && Enabled(After(events).value, e)
    ensures After(events + [e]) == Some(Next(After(events).value, e))
    ensures LogOf(events + [e]) == LogOf(events) + if e.Save? then [PcOf(After(events).value, e.p).w] else []
  {
    assert (events + [e])[..|events|] == events;
  }

  function PickBy(p: nat, w: World): seq<Event> {
    [Acquire(p)] + [Read(p)] + [Decide(p, w)] + [Save(p)] + [Leave(p)]
  }

  lemma OutcomeOnEmptyStore(w: World, issue: Issue)
    requires w.issues == [issue] && issue.status == "open" && w.pipelinePrs == None
    ensures OutcomeOf(map[], w) == Pick(issue) && Committed(map[], w) == map[issue.id := w.claimNow] && !Raises(map[], w)
  {
    assert Kept(map[], w) == map[] && Kept(map[], w).Keys == {};
    assert w.issues[..0] == [] && SelectAmong([], {}, w) == None && Eligible(issue, {}, w);
    assert SelectAmong(w.issues, {}, w) == Some(issue);
    assert Picked(map[], w) == Some(issue);
  }

  /** A process with the lock to itself, up to its decision. */
  lemma ReachesReady(events: seq<Event>, p: nat, w: World)
    requires After(events).Some? && After(events).value.lock == None && PcOf(After(events).value, p).Outside?
    ensures var s, decided := After(events).value, After(events + [Acquire(p)] + [Read(p)] + [Decide(p, w)]);
            && decided.Some? && PcOf(decided.value, p) == Ready(Load(s.store), w)
            && decided.value.store == (if s.store.Corrupt? then Missing else s.store)
    ensures LogOf(events + [Acquire(p)] + [Read(p)] + [Decide(p, w)]) == LogOf(events)
  {
    Extend(events, Acquire(p));
    Extend(events + [Acquire(p)], Read(p));
    Extend(events + [Acquire(p)] + [Read(p)], Decide(p, w));
  }

  /** And from there to the end, when it has something to write. */
  lemma SavesAndLeaves(events: seq<Event>, p: nat, before: Held, w: World)
    requires After(events).Some? && PcOf(After(events).value, p) == Ready(before, w)
    requires !Raises(before, w) && Committed(before, w) != before
    ensures After(events + [Save(p)] + [Leave(p)]).Some? && LogOf(events + [Save(p)] + [Leave(p)]) == LogOf(events) + [w]
    ensures var s := After(events + [Save(p)] + [Leave(p)]).value;
            s.store == Good(Committed(before, w)) && s.lock == None && PcOf(s, p).Outside?
  {
    Extend(events, Save(p));
    Extend(events + [Save(p)], Leave(p));
  }

  lemma PickOnEmptyStore(events: seq<Event>, p: nat, w: World, issue: Issue)
    requires After(events).Some? && After(events).value.lock == None && PcOf(After(events).value, p).Outside?
    requires Load(After(events).value.store) == map[]
    requires w.issues == [issue] && issue.status == "open" && w.pipelinePrs == None
    ensures OutcomeOf(map[], w) == Pick(issue)
    ensures After(events + PickBy(p, w)).Some? && LogOf(events + PickBy(p, w)) == LogOf(events) + [w]
    ensures var s := After(events + PickBy(p, w)).value;
            s.store == Good(map[issue.id := w.claimNow]) && s.lock == None && PcOf(s, p).Outside?
  {
    OutcomeOnEmptyStore(w, issue);
    var decided := events + [Acquire(p)] + [Read(p)] + [Decide(p, w)];
    ReachesReady(events, p, w);
    SavesAndLeaves(decided, p, map[], w);
    assert events + PickBy(p, w) == decided + [Save(p)] + [Leave(p)];
  }

  lemma PickedThenDamaged(p: nat, q: nat, w: World, issue: Issue)
    requires w.issues == [issue] && issue.status == "open" && w.pipelinePrs == None && p != q
    ensures var events := PickBy(p, w) + [Damage];
            && After(events).Some? && LogOf(events) == [w] && After(events).value.lock == None
            && Load(After(events).value.store) == map[] && PcOf(After(events).value, q).Outside?
  {
    assert [] + PickBy(p, w) == PickBy(p, w) && LogOf([]) + [w] == [w];
    PickOnEmptyStore([], p, w, issue);
    Extend(PickBy(p, w), Damage);
    OthersStayOutside(PickBy(p, w) + [Damage], p, q);
  }

  /** The store must stay undamaged: a claim lost to damage is picked again without a release. */
  lemma DamageLosesClaims(p: nat, q: nat, w: World, issue: Issue)
    requires w.issues == [issue] && issue.status == "open" && w.pipelinePrs == None && p != q
    ensures var events := PickBy(p, w) + [Damage] + PickBy(q, w);
            && After(events).Some? && LogOf(events) == [w, w] && OutcomeOf(map[], w) == Pick(issue)
            && Load(After(events).value.store) == map[issue.id := w.claimNow]
  {
    PickedThenDamaged(p, q, w, issue);
    PickOnEmptyStore(PickBy(p, w) + [Damage], q, w, issue);
    assert [w] + [w] == [w, w];
  }

  /** A trace of `p` and damages leaves every other process outside. */
  lemma {:induction false} OthersStayOutside(events: seq<Event>, p: nat, q: nat)
    requires After(events).Some? && p != q
    requires forall i :: 0 <= i < |events| ==> events[i].Damage? || events[i].p == p
    ensures PcOf(After(events).value, q).Outside?
  {
    if events != [] {
      OthersStayOutside(events[..|events| - 1], p, q);
    }
  }
}
