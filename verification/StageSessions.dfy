/** The stage table (`pipeline_stages.py`) and the check that every stage ran in a session of its own
    (`pipeline_watchdog.validate_stage_sessions`). */
module StageSessions {
  import opened Common
  import opened Json
  import opened Sequences
  import opened Sorting

  const LAST_STAGE := 7
  const SPEC_REVIEW_STAGE := 2
  const TEST_AUTHOR_STAGE := 3
  const IMPLEMENT_STAGE := 4
  const PR_STAGE := 5
  const ADDRESS_COMMENTS_STAGE := 7

  /** One row of the table; `reuses` is the stage whose session a stage resumes. */
  datatype StageSpec = StageSpec(stage: int, agent: bool, reuses: Option<int>)

  const STAGES: seq<StageSpec> := [
    StageSpec(1, true, None), StageSpec(2, true, None), StageSpec(3, true, None), StageSpec(4, true, None),
    StageSpec(5, false, None), StageSpec(6, true, None), StageSpec(7, true, Some(4))]

  /** `str(stage)` for the stages there are. */
  function Key(stage: int): string {
    if 1 <= stage <= LAST_STAGE then ["1", "2", "3", "4", "5", "6", "7"][stage - 1] else "?"
  }

  /** Runs an agent, in a session no other stage uses. */
  predicate Independent(stage: int) {
    1 <= stage <= LAST_STAGE && stage != PR_STAGE && stage != ADDRESS_COMMENTS_STAGE
  }

  lemma TableSays(i: nat)
    requires i < |STAGES|
    ensures STAGES[i].stage == i + 1 && (Independent(i + 1) <==> STAGES[i].agent && STAGES[i].reuses.None?)
  {
  }

  // -- ids ------------------------------------------------------------------------------------

  predicate AlphaNumeric(c: char) {
    'A' <= c <= 'Z' || 'a' <= c <= 'z' || '0' <= c <= '9'
  }

  /** `^ses_[A-Za-z0-9]{20,}$`, whose `$` also matches before one final newline. */
  predicate RealId(id: string) {
    var end := if id != "" && id[|id| - 1] == '\n' then |id| - 1 else |id|;
    && "ses_" <= id && end >= 24
    && forall i :: 4 <= i < end ==> AlphaNumeric(id[i])
  }

  function LowerChar(c: char): char {
    if 'A' <= c <= 'Z' then (c as int + 32) as char else c
  }

  function Lower(s: string): string {
    if s == "" then "" else [LowerChar(s[0])] + Lower(s[1..])
  }

  const FABRICATED: seq<string> := ["fake", "placeholder", "dummy", "stub", "todo", "example", "sample", "mock"]

  predicate Fabricated(id: string) {
    exists i :: 0 <= i < |FABRICATED| && Contains(Lower(id), FABRICATED[i])
  }

  predicate Genuine(id: string) {
    RealId(id) && !Fabricated(id)
  }

  /** An id is genuine when it is `ses_` and at least twenty letters or digits, but for a newline at the end, and none of
      these words is in it, in whatever case. */
  lemma GenuineMeans(id: string)
    ensures Genuine(id) <==>
              && (exists tail :: IdWithTail(id, tail))
              && !Contains(Lower(id), "fake") && !Contains(Lower(id), "placeholder") && !Contains(Lower(id), "dummy")
              && !Contains(Lower(id), "stub") && !Contains(Lower(id), "todo") && !Contains(Lower(id), "example")
              && !Contains(Lower(id), "sample") && !Contains(Lower(id), "mock")
  {
    FabricatedMeans(id);
    if RealId(id) {
      var end := if id != "" && id[|id| - 1] == '\n' then |id| - 1 else |id|;
      assert IdWithTail(id, id[4..end]);
    }
  }

  ghost predicate IdWithTail(id: string, tail: string) {
    && (id == "ses_" + tail || id == "ses_" + tail + "\n") && |tail| >= 20
    && forall i :: 0 <= i < |tail| ==> 'A' <= tail[i] <= 'Z' || 'a' <= tail[i] <= 'z' || '0' <= tail[i] <= '9'
  }

  lemma FabricatedMeans(id: string)
    ensures Fabricated(id) <==>
              || Contains(Lower(id), "fake") || Contains(Lower(id), "placeholder") || Contains(Lower(id), "dummy")
              || Contains(Lower(id), "stub") || Contains(Lower(id), "todo") || Contains(Lower(id), "example")
              || Contains(Lower(id), "sample") || Contains(Lower(id), "mock")
  {
    var low := Lower(id);
    assert FABRICATED[0] == "fake" && FABRICATED[1] == "placeholder" && FABRICATED[2] == "dummy" && FABRICATED[3] == "stub";
    assert FABRICATED[4] == "todo" && FABRICATED[5] == "example" && FABRICATED[6] == "sample" && FABRICATED[7] == "mock";
  }

  lemma {:induction false} InLowerCase(s: string, i: nat)
    requires i < |s|
    ensures |Lower(s)| == |s|
    ensures 'A' <= s[i] <= 'Z' ==> 'a' <= Lower(s)[i] <= 'z' && Lower(s)[i] as int - 'a' as int == s[i] as int - 'A' as int
    ensures !('A' <= s[i] <= 'Z') ==> Lower(s)[i] == s[i]
  {
    if |s| > 1 {
      InLowerCase(s[1..], if i > 0 then i - 1 else 0);
    }
  }

  // -- the check --------------------------------------------------------------------------------

  /** A JSON object with its keys in order. */
  type Entries = seq<(string, Json)>

  predicate DistinctKeys(entries: Entries) {
    forall i, j :: 0 <= i < j < |entries| ==> entries[i].0 != entries[j].0
  }

  predicate HasKey(entries: Entries, key: string) {
    exists i :: 0 <= i < |entries| && entries[i].0 == key
  }

  /** How many rows `expected[:min(current, 7)]` keeps; a negative end counts from the back. */
  function Reached(current: int): nat {
    if current >= LAST_STAGE then LAST_STAGE else if current >= 0 then current else if current + LAST_STAGE >= 0 then current + LAST_STAGE else 0
  }

  datatype Issue =
    | MissingOrEmpty | NonString | Placeholder(id: string) | NotAnId(id: string)
    | Reused(owner: string, key: string) | Unrecorded(stage: int)

  /** All ids well formed, pairwise distinct except stage 7 after stage 4, and every independent stage reached
      under its own key. */
  predicate Accepts(sessions: Option<Entries>, current: Json) {
    && sessions.Some? && sessions.value != []
    && var entries := sessions.value;
    && (forall i :: 0 <= i < |entries| ==> entries[i].1.JStr? && Genuine(entries[i].1.s))
    && OnlyResumed(entries, |entries|)
    && (current.JInt? ==> forall k :: 1 <= k <= Reached(current.n) && Independent(k) ==> HasKey(entries, Key(k)))
  }

  method FirstNotGenuine(entries: Entries) returns (issue: Option<Issue>)
    requires forall i :: 0 <= i < |entries| ==> entries[i].1.JStr?
    ensures issue.None? <==> forall i :: 0 <= i < |entries| ==> Genuine(entries[i].1.s)
  {
    for i := 0 to |entries|
      invariant forall j :: 0 <= j < i ==> !Fabricated(entries[j].1.s)
    {
      if Fabricated(entries[i].1.s) {
        return Some(Placeholder(entries[i].1.s));
      }
    }
    for i := 0 to |entries|
      invariant forall j :: 0 <= j < i ==> RealId(entries[j].1.s)
    {
      if !RealId(entries[i].1.s) {
        return Some(NotAnId(entries[i].1.s));
      }
    }
    issue := None;
  }

  /** No id among the first `n` entries repeats but stage 4's under stage 7. */
  predicate OnlyResumed(entries: Entries, n: nat)
    requires n <= |entries|
  {
    forall i, j :: 0 <= i < j < n && entries[i].1 == entries[j].1 ==>
      entries[i].0 == Key(IMPLEMENT_STAGE) && entries[j].0 == Key(ADDRESS_COMMENTS_STAGE)
  }

  /** `seen` maps each id of the first `n` entries to a key it stands under. */
  ghost predicate Owners(entries: Entries, n: nat, seen: map<string, string>)
    requires n <= |entries|
  {
    && (forall i :: 0 <= i < n ==> entries[i].1.JStr? && entries[i].1.s in seen)
    && (forall id :: id in seen ==> exists i :: 0 <= i < n && entries[i] == (seen[id], JStr(id)))
  }

  lemma AnotherOwner(entries: Entries, n: nat, seen: map<string, string>)
    requires n < |entries| && Owners(entries, n, seen) && OnlyResumed(entries, n)
    requires entries[n].1.JStr? && entries[n].1.s !in seen
    ensures Owners(entries, n + 1, seen[entries[n].1.s := entries[n].0]) && OnlyResumed(entries, n + 1)
  {
    NotSeenBefore(entries, n, seen);
    var more := seen[entries[n].1.s := entries[n].0];
    forall id | id in more ensures exists i :: 0 <= i < n + 1 && entries[i] == (more[id], JStr(id)) {
      if id == entries[n].1.s {
        assert entries[n] == (more[id], JStr(id));
      } else {
        var first := OwnerOf(entries, n, seen, id);
      }
    }
  }

  lemma NotSeenBefore(entries: Entries, n: nat, seen: map<string, string>)
    requires n < |entries| && Owners(entries, n, seen) && OnlyResumed(entries, n)
    requires entries[n].1.JStr? && entries[n].1.s !in seen
    ensures OnlyResumed(entries, n + 1)
  {
    assert forall i :: 0 <= i < n ==> entries[i].1 != entries[n].1;
  }

  lemma OwnerOf(entries: Entries, n: nat, seen: map<string, string>, id: string) returns (first: nat)
    requires n <= |entries| && Owners(entries, n, seen) && id in seen
    ensures first < n && entries[first] == (seen[id], JStr(id))
  {
    first :| 0 <= first < n && entries[first] == (seen[id], JStr(id));
  }

  lemma OwnersKeep(entries: Entries, n: nat, seen: map<string, string>)
    requires n < |entries| && Owners(entries, n, seen) && entries[n].1.JStr? && entries[n].1.s in seen
    ensures Owners(entries, n + 1, seen)
  {
    forall id | id in seen ensures exists i :: 0 <= i < n + 1 && entries[i] == (seen[id], JStr(id)) {
      var first := OwnerOf(entries, n, seen, id);
    }
  }

  lemma RepeatAllowed(entries: Entries, n: nat, first: nat)
    requires first < n < |entries| && DistinctKeys(entries) && OnlyResumed(entries, n) && entries[first].1 == entries[n].1
    requires entries[first].0 == Key(IMPLEMENT_STAGE) && entries[n].0 == Key(ADDRESS_COMMENTS_STAGE)
    ensures OnlyResumed(entries, n + 1)
  {
    forall i | 0 <= i < n && entries[i].1 == entries[n].1 ensures i == first {
    }
  }

  /** An id seen before: the check on its owner decides, and the owners stay as they are. */
  lemma SeenAgain(entries: Entries, n: nat, seen: map<string, string>)
    requires n < |entries| && DistinctKeys(entries) && OnlyResumed(entries, n) && Owners(entries, n, seen)
    requires entries[n].1.JStr? && entries[n].1.s in seen
    ensures Owners(entries, n + 1, seen)
    ensures if seen[entries[n].1.s] == Key(IMPLEMENT_STAGE) && entries[n].0 == Key(ADDRESS_COMMENTS_STAGE)
            then OnlyResumed(entries, n + 1) else !OnlyResumed(entries, |entries|)
  {
    var first := OwnerOf(entries, n, seen, entries[n].1.s);
    OwnersKeep(entries, n, seen);
    if entries[first].0 == Key(IMPLEMENT_STAGE) && entries[n].0 == Key(ADDRESS_COMMENTS_STAGE) {
      RepeatAllowed(entries, n, first);
    }
  }

  /** The `seen` loop: the first stage that repeats another's session without being allowed to. */
  method FirstReuse(entries: Entries) returns (issue: Option<Issue>)
    requires DistinctKeys(entries) && forall i :: 0 <= i < |entries| ==> entries[i].1.JStr?
    ensures issue.None? <==> OnlyResumed(entries, |entries|)
  {
    var seen: map<string, string> := map[];
    for n := 0 to |entries|
      invariant Owners(entries, n, seen) && OnlyResumed(entries, n)
    {
      var key, id := entries[n].0, entries[n].1.s;
      if id !in seen {
        AnotherOwner(entries, n, seen);
        seen := seen[id := key];
        continue;
      }
      SeenAgain(entries, n, seen);
      var owner := seen[id];
      if !(ReuseAllowed(owner) == Some(key)) {
        return Some(Reused(owner, key));
      }
    }
    issue := None;
  }

  /** `reuse_allowed`. */
  function ReuseAllowed(owner: string): Option<string> {
    if owner == Key(IMPLEMENT_STAGE) then Some(Key(ADDRESS_COMMENTS_STAGE)) else None
  }

  method FirstUnrecorded(entries: Entries, current: int) returns (issue: Option<Issue>)
    ensures issue.None? <==> forall k :: 1 <= k <= Reached(current) && Independent(k) ==> HasKey(entries, Key(k))
  {
    for i := 0 to Reached(current)
      invariant forall k :: 1 <= k <= i && Independent(k) ==> HasKey(entries, Key(k))
    {
      TableSays(i);
      var spec := STAGES[i];
      if spec.agent && spec.reuses.None? && !HasKey(entries, Key(spec.stage)) {
        return Some(Unrecorded(spec.stage));
      }
    }
    issue := None;
  }

  /** `validate_stage_sessions`: no issue exactly when the sessions prove the stages independent. */
  method ValidateStageSessions(sessions: Option<Entries>, current: Json) returns (issue: Option<Issue>)
    requires sessions.Some? ==> DistinctKeys(sessions.value)
    ensures issue.None? <==> Accepts(sessions, current)
  {
    if sessions.None? || sessions.value == [] {
      return Some(MissingOrEmpty);
    }
    var entries := sessions.value;
    var strings := Filter((e: (string, Json)) => e.1.JStr?, entries);
    AllOrFewer(entries, (e: (string, Json)) => e.1.JStr?);
    if |strings| != |entries| {
      return Some(NonString);
    }
    issue := FirstNotGenuine(entries);
    if issue.Some? {
      return;
    }
    issue := FirstReuse(entries);
    if issue.Some? {
      return;
    }
    if current.JInt? {
      issue := FirstUnrecorded(entries, current.n);
    }
  }

  lemma {:induction false} AllOrFewer<T>(s: seq<T>, p: T -> bool)
    ensures |Filter(p, s)| <= |s|
    ensures |Filter(p, s)| == |s| <==> forall i :: 0 <= i < |s| ==> p(s[i])
  {
    if s != [] {
      AllOrFewer(s[..|s| - 1], p);
    }
  }

  /** Which keys a run at a stage must have on record; a stage below 0 counts from the end of the table. */
  lemma StagesAskedFor(entries: Entries, current: int)
    ensures var at := if current < 0 then current + 7 else current;
            (forall k :: 1 <= k <= Reached(current) && Independent(k) ==> HasKey(entries, Key(k))) <==>
              && (at >= 1 ==> HasKey(entries, "1")) && (at >= 2 ==> HasKey(entries, "2")) && (at >= 3 ==> HasKey(entries, "3"))
              && (at >= 4 ==> HasKey(entries, "4")) && (at >= 6 ==> HasKey(entries, "6"))
  {
    assert Key(1) == "1" && Key(2) == "2" && Key(3) == "3" && Key(4) == "4" && Key(6) == "6";
    assert forall k :: 1 <= k <= 7 && Independent(k) <==> k in {1, 2, 3, 4, 6};
  }

  /** The one repetition allowed: stage 7 after stage 4. */
  lemma RepeatsAllowed(entries: Entries)
    ensures OnlyResumed(entries, |entries|) <==>
            forall i, j :: 0 <= i < j < |entries| && entries[i].1 == entries[j].1 ==> entries[i].0 == "4" && entries[j].0 == "7"
  {
    assert Key(IMPLEMENT_STAGE) == "4" && Key(ADDRESS_COMMENTS_STAGE) == "7";
  }

  // -- without the order ------------------------------------------------------------------------

  /** The same, on the ids by stage key. */
  predicate SessionsProve(sessions: map<string, string>, stage: int) {
    && sessions != map[]
    && (forall a :: a in sessions ==> Genuine(sessions[a]))
    && (forall a, b :: a in sessions && b in sessions && a != b && sessions[a] == sessions[b] ==>
          {a, b} == {Key(IMPLEMENT_STAGE), Key(ADDRESS_COMMENTS_STAGE)})
    && forall k :: 1 <= k <= Reached(stage) && Independent(k) ==> Key(k) in sessions
  }

  ghost predicate Lists(entries: Entries, sessions: map<string, string>) {
    && DistinctKeys(entries)
    && (forall i :: 0 <= i < |entries| ==> entries[i].0 in sessions && entries[i].1 == JStr(sessions[entries[i].0]))
    && (forall a :: a in sessions ==> HasKey(entries, a))
  }

  /** If stages 4 and 7 have the same id, stage 4 is listed first, as it is when stage 7 was recorded by resuming it. */
  ghost predicate ResumedInOrder(entries: Entries) {
    forall i, j | 0 <= i < |entries| && 0 <= j < |entries| ::
      entries[i].0 == Key(IMPLEMENT_STAGE) && entries[j].0 == Key(ADDRESS_COMMENTS_STAGE) && entries[i].1 == entries[j].1 ==> i < j
  }

  lemma AcceptsImpliesProve(entries: Entries, sessions: map<string, string>, stage: int)
    requires Lists(entries, sessions) && Accepts(Some(entries), JInt(stage))
    ensures SessionsProve(sessions, stage)
  {
    assert entries[0].0 in sessions;
    forall a | a in sessions ensures Genuine(sessions[a]) {
      assert HasKey(entries, a);
    }
    forall a, b | a in sessions && b in sessions && a != b && sessions[a] == sessions[b]
      ensures {a, b} == {Key(IMPLEMENT_STAGE), Key(ADDRESS_COMMENTS_STAGE)}
    {
      SharedByTheTwo(entries, sessions, a, b);
    }
  }

  lemma SharedByTheTwo(entries: Entries, sessions: map<string, string>, a: string, b: string)
    requires Lists(entries, sessions) && OnlyResumed(entries, |entries|)
    requires a in sessions && b in sessions && a != b && sessions[a] == sessions[b]
    ensures {a, b} == {Key(IMPLEMENT_STAGE), Key(ADDRESS_COMMENTS_STAGE)}
  {
    assert HasKey(entries, a) && HasKey(entries, b);
    var i :| 0 <= i < |entries| && entries[i].0 == a;
    var j :| 0 <= j < |entries| && entries[j].0 == b;
    assert entries[i].1 == entries[j].1;
  }

  lemma ProveImpliesOnlyResumed(entries: Entries, sessions: map<string, string>, stage: int)
    requires Lists(entries, sessions) && ResumedInOrder(entries) && SessionsProve(sessions, stage)
    ensures OnlyResumed(entries, |entries|)
  {
    forall i, j | 0 <= i < j < |entries| && entries[i].1 == entries[j].1
      ensures entries[i].0 == Key(IMPLEMENT_STAGE) && entries[j].0 == Key(ADDRESS_COMMENTS_STAGE)
    {
      var a, b := entries[i].0, entries[j].0;
      assert a != b && sessions[a] == sessions[b];
      assert a in {a, b} && b in {a, b};
    }
  }

  lemma ProveImpliesAccepts(entries: Entries, sessions: map<string, string>, stage: int)
    requires Lists(entries, sessions) && ResumedInOrder(entries) && SessionsProve(sessions, stage)
    ensures Accepts(Some(entries), JInt(stage))
  {
    var a :| a in sessions;
    assert HasKey(entries, a);
    ProveImpliesOnlyResumed(entries, sessions, stage);
  }

  lemma AcceptsImpliesOrder(entries: Entries, current: Json)
    requires DistinctKeys(entries) && Accepts(Some(entries), current)
    ensures ResumedInOrder(entries)
  {
    forall i, j | 0 <= i < |entries| && 0 <= j < |entries|
                  && entries[i].0 == Key(IMPLEMENT_STAGE) && entries[j].0 == Key(ADDRESS_COMMENTS_STAGE)
                  && entries[i].1 == entries[j].1
      ensures i < j
    {
      TwoStages();
    }
  }

  lemma TwoStages()
    ensures Key(IMPLEMENT_STAGE) != Key(ADDRESS_COMMENTS_STAGE)
  {
  }

  /** The check accepts exactly the ids that prove the stages independent, listed 4 before 7 if those two are equal. */
  lemma OrderMattersOnlyForTheShared(entries: Entries, sessions: map<string, string>, stage: int)
    requires Lists(entries, sessions)
    ensures Accepts(Some(entries), JInt(stage)) <==> SessionsProve(sessions, stage) && ResumedInOrder(entries)
  {
    if Accepts(Some(entries), JInt(stage)) {
      AcceptsImpliesProve(entries, sessions, stage);
      AcceptsImpliesOrder(entries, JInt(stage));
    }
    if SessionsProve(sessions, stage) && ResumedInOrder(entries) {
      ProveImpliesAccepts(entries, sessions, stage);
    }
  }

  /** The order in which `write_state_json` leaves the keys of an object: it sorts them. */
  ghost predicate SortedKeys(entries: Entries) {
    forall i, j :: 0 <= i < j < |entries| ==> StringLess(entries[i].0, entries[j].0)
  }

  lemma SortedKeysAreInOrder(entries: Entries)
    requires SortedKeys(entries)
    ensures ResumedInOrder(entries)
  {
    forall i, j | 0 <= i < |entries| && 0 <= j < |entries|
                  && entries[i].0 == Key(IMPLEMENT_STAGE) && entries[j].0 == Key(ADDRESS_COMMENTS_STAGE)
      ensures i < j
    {
      TwoStages();
      assert !StringLess(Key(ADDRESS_COMMENTS_STAGE), Key(IMPLEMENT_STAGE));
    }
  }

  /** On keys as they come from disk, the check is the order-blind condition. */
  lemma SortedKeysDecideAlike(entries: Entries, sessions: map<string, string>, stage: int)
    requires Lists(entries, sessions) && SortedKeys(entries)
    ensures Accepts(Some(entries), JInt(stage)) <==> SessionsProve(sessions, stage)
  {
    SortedKeysAreInOrder(entries);
    OrderMattersOnlyForTheShared(entries, sessions, stage);
  }

  function Listed(names: seq<string>, sessions: map<string, string>): (entries: Entries)
    requires forall name :: name in names ==> name in sessions
    ensures |entries| == |names| && forall i :: 0 <= i < |names| ==> entries[i] == (names[i], JStr(sessions[names[i]]))
  {
    if names == [] then []
    else Listed(names[..|names| - 1], sessions) + [(names[|names| - 1], JStr(sessions[names[|names| - 1]]))]
  }

  /** Any sessions can be listed so. */
  lemma SortedListing(sessions: map<string, string>) returns (entries: Entries)
    ensures Lists(entries, sessions) && SortedKeys(entries)
  {
    var names := SortedNames(sessions.Keys);
    entries := Listed(names, sessions);
    forall i, j | 0 <= i < j < |entries| ensures entries[i].0 != entries[j].0 {
      StringLessTotal(names[i], names[j]);
    }
    forall a | a in sessions ensures HasKey(entries, a) {
      var i :| 0 <= i < |names| && names[i] == a;
      assert entries[i].0 == a;
    }
  }

  lemma SortedNames(keys: set<string>) returns (names: seq<string>)
    ensures (forall key :: key in names <==> key in keys) && Sorted(StringLess, names)
  {
    var list := Listing(keys);
    StringsTotal(Elements(list));
    SortSorted(StringLess, list);
    names := Sort(StringLess, list);
  }

  lemma {:induction false} Listing(keys: set<string>) returns (list: seq<string>)
    ensures Distinct(list) && forall key :: key in list <==> key in keys
  {
    if keys == {} {
      list := [];
    } else {
      var key :| key in keys;
      list := Listing(keys - {key});
      list := list + [key];
    }
  }

  /** Stage 7's id listed before stage 4's is refused although the sessions are the same. */
  lemma ReversedKeysAreRefused(id: string, current: Json)
    ensures !Accepts(Some([(Key(ADDRESS_COMMENTS_STAGE), JStr(id)), (Key(IMPLEMENT_STAGE), JStr(id))]), current)
  {
    var entries := [(Key(ADDRESS_COMMENTS_STAGE), JStr(id)), (Key(IMPLEMENT_STAGE), JStr(id))];
    assert entries[0].1 == entries[1].1;
  }
}
