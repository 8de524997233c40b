/** The two files of an audit (`findings.py`): the manifest a report is read from, and the saved ledger. */
module FindingsFiles {
  import opened Common
  import opened Sorting
  import opened Json
  import opened Findings
  import opened AuditCycles

  // -- manifest -----------------------------------------------------------------

  const ID_MAX_LEN := 128

  function SeverityOf(s: string): Option<Severity> {
    if s == "low" then Some(Low) else if s == "medium" then Some(Medium) else if s == "high" then Some(High) else None
  }

  function SeverityName(s: Severity): string {
    match s
    case Low => "low"
    case Medium => "medium"
    case High => "high"
  }

  /** `str.strip` and the hashed `finding_id`, left uninterpreted. */
  datatype Naming = Naming(strip: string -> string, derive: (string, string, string) -> string)

  /** `_parse_finding`. */
  function ParseFinding(element: Json, check: string, naming: Naming): Option<Finding> {
    if !element.JObj? then None
    else
      var kind, severity := Field(element.fields, "kind"), Field(element.fields, "severity");
      var location, summary := Field(element.fields, "location"), Field(element.fields, "summary");
      if !(IsText(kind) && IsText(severity) && IsText(location) && IsText(summary)) then None
      else if SeverityOf(severity.s).None? then None
      else
        var supplied := Field(element.fields, "id");
        if supplied == JNull then
          Some(Finding(naming.derive(check, kind.s, location.s), kind.s, SeverityOf(severity.s).value, location.s, summary.s))
        else if !supplied.JStr? then None
        else
          var trimmed := naming.strip(supplied.s);
          if trimmed == "" || |trimmed| > ID_MAX_LEN then None
          else Some(Finding(trimmed, kind.s, SeverityOf(severity.s).value, location.s, summary.s))
  }

  /** An element is a finding exactly when its texts are there, its severity is one of the three words and its id, if it
      brings one, is a text that is not blank or over 128 characters. */
  lemma WhenAnElementParses(element: Json, check: string, naming: Naming)
    ensures ParseFinding(element, check, naming).Some? <==>
              && element.JObj? && IsText(Field(element.fields, "kind")) && IsText(Field(element.fields, "location"))
              && IsText(Field(element.fields, "summary"))
              && Field(element.fields, "severity") in {JStr("low"), JStr("medium"), JStr("high")}
              && (var id := Field(element.fields, "id");
                  id == JNull || (id.JStr? && naming.strip(id.s) != "" && |naming.strip(id.s)| <= 128))
  {
  }

  /** What it parses to: each text under its own name, the id it brings, or one made from check, kind and location. */
  lemma WhatAnElementParsesTo(element: Json, check: string, naming: Naming)
    requires ParseFinding(element, check, naming).Some?
    ensures var d, f := element.fields, ParseFinding(element, check, naming).value;
            && Field(d, "kind") == JStr(f.kind) && Field(d, "location") == JStr(f.location) && Field(d, "summary") == JStr(f.summary)
            && (f.severity == Low <==> Field(d, "severity") == JStr("low"))
            && (f.severity == Medium <==> Field(d, "severity") == JStr("medium"))
            && (f.severity == High <==> Field(d, "severity") == JStr("high"))
            && (f.id == if Field(d, "id") == JNull then naming.derive(check, f.kind, f.location) else naming.strip(Field(d, "id").s))
  {
  }

  datatype Manifest = Manifest(check: string, findings: seq<Finding>, duplicateIds: seq<string>)

  /** The elements in order, if every one parses. */
  function ParseAll(items: seq<Json>, check: string, naming: Naming): Option<seq<Finding>> {
    if items == [] then Some([])
    else
      var before := ParseAll(items[..|items| - 1], check, naming);
      var last := ParseFinding(items[|items| - 1], check, naming);
      if before.Some? && last.Some? then Some(before.value + [last.value]) else None
  }

  lemma {:induction false} ParseAllPrefix(items: seq<Json>, check: string, naming: Naming, n: nat)
    requires n <= |items| && ParseAll(items[..n], check, naming).None?
    ensures ParseAll(items, check, naming).None?
  {
    if n < |items| {
      assert items[..|items| - 1][..n] == items[..n];
      ParseAllPrefix(items[..|items| - 1], check, naming, n);
    } else {
      assert items[..n] == items;
    }
  }

  /** Exactly one finding per element, each what its element parses to. */
  lemma {:induction false} ParseAllMeans(items: seq<Json>, check: string, naming: Naming)
    ensures ParseAll(items, check, naming).Some? <==> forall i :: 0 <= i < |items| ==> ParseFinding(items[i], check, naming).Some?
    ensures ParseAll(items, check, naming).Some? ==>
      var fs := ParseAll(items, check, naming).value;
      |fs| == |items| && forall i :: 0 <= i < |items| ==> ParseFinding(items[i], check, naming) == Some(fs[i])
  {
    if items != [] {
      ParseAllMeans(items[..|items| - 1], check, naming);
    }
  }

  /** `fs[i]` stands for its id: nothing with that id is more severe, nothing earlier is as severe. */
  ghost predicate BestAt(fs: seq<Finding>, i: nat)
    requires i < |fs|
  {
    forall j :: 0 <= j < |fs| && fs[j].id == fs[i].id ==>
      Rank(fs[j].severity) <= Rank(fs[i].severity) && (j < i ==> Rank(fs[j].severity) < Rank(fs[i].severity))
  }

  ghost predicate IsBest(fs: seq<Finding>, f: Finding) {
    exists i :: 0 <= i < |fs| && fs[i] == f && BestAt(fs, i)
  }

  ghost predicate Repeats(fs: seq<Finding>, id: string) {
    exists i, j :: 0 <= i < j < |fs| && fs[i].id == id && fs[j].id == id
  }

  ghost predicate IsManifest(fs: seq<Finding>, m: Manifest) {
    && Sorted(Before, m.findings)
    && (forall f :: f in m.findings <==> IsBest(fs, f))
    && Distinct(m.duplicateIds)
    && (forall id :: id in m.duplicateIds <==> Repeats(fs, id))
  }

  /** What `load_findings_manifest_full` checks before it reads the elements. */
  predicate ManifestHeader(raw: Json) {
    && raw.JObj? && IsOne(Field(raw.fields, "version"))
    && IsText(Field(raw.fields, "check")) && Field(raw.fields, "findings").JArr?
  }

  /** The finding kept for an id is never outdone by a more severe one, and is the first of its severity. */
  lemma KeptIsMostSevere(fs: seq<Finding>, m: Manifest, f: Finding)
    requires IsManifest(fs, m) && f in m.findings
    ensures exists i :: 0 <= i < |fs| && fs[i] == f && forall j :: 0 <= j < |fs| && fs[j].id == f.id ==>
              !Rises(f.severity, fs[j].severity) && (j < i ==> fs[j].severity != f.severity)
  {
    assert IsBest(fs, f);
    var i :| 0 <= i < |fs| && fs[i] == f && BestAt(fs, i);
  }

  /** A manifest's header: an object of version 1 with a check name and a list of findings. */
  lemma HeaderMeans(raw: Json)
    ensures ManifestHeader(raw) <==>
              && raw.JObj? && Field(raw.fields, "version") in {JInt(1), JBool(true), JFloat(0x3FF0_0000_0000_0000)}
              && Field(raw.fields, "check").JStr? && Field(raw.fields, "check").s != "" && Field(raw.fields, "findings").JArr?
  {
  }

  ghost predicate CollapsedTo(fs: seq<Finding>, collapsed: map<string, Finding>) {
    && (forall f :: f in fs ==> f.id in collapsed)
    && (forall id :: id in collapsed ==> collapsed[id].id == id && IsBest(fs, collapsed[id]))
  }

  lemma BestUnique(fs: seq<Finding>, f: Finding, g: Finding)
    requires IsBest(fs, f) && IsBest(fs, g) && f.id == g.id
    ensures f == g
  {
    var i :| 0 <= i < |fs| && fs[i] == f && BestAt(fs, i);
    var j :| 0 <= j < |fs| && fs[j] == g && BestAt(fs, j);
  }

  lemma Collapse(fs: seq<Finding>, collapsed: map<string, Finding>, f: Finding)
    requires CollapsedTo(fs, collapsed)
    ensures CollapsedTo(fs + [f],
      if f.id !in collapsed || Rank(f.severity) > Rank(collapsed[f.id].severity) then collapsed[f.id := f] else collapsed)
  {
    var next := if f.id !in collapsed || Rank(f.severity) > Rank(collapsed[f.id].severity) then collapsed[f.id := f] else collapsed;
    var fs' := fs + [f];
    forall id | id in next ensures next[id].id == id && IsBest(fs', next[id]) {
      if next[id] == f && (id !in collapsed || collapsed[id] != f) {
        if f.id in collapsed {
          var i :| 0 <= i < |fs| && fs[i] == collapsed[f.id] && BestAt(fs, i);
        }
        assert BestAt(fs', |fs|) by {
          forall j | 0 <= j < |fs'| && fs'[j].id == f.id
            ensures Rank(fs'[j].severity) <= Rank(f.severity) && (j < |fs| ==> Rank(fs'[j].severity) < Rank(f.severity))
          {
            if j < |fs| { assert fs[j] in fs; }
          }
        }
      } else {
        var i :| 0 <= i < |fs| && fs[i] == collapsed[id] && BestAt(fs, i);
        assert BestAt(fs', i);
      }
    }
  }

  lemma Repeat(fs: seq<Finding>, collapsed: map<string, Finding>, f: Finding, id: string)
    requires CollapsedTo(fs, collapsed)
    ensures Repeats(fs + [f], id) <==> Repeats(fs, id) || (id == f.id && f.id in collapsed)
  {
    var fs' := fs + [f];
    if Repeats(fs, id) {
      var i, j :| 0 <= i < j < |fs| && fs[i].id == id && fs[j].id == id;
      assert fs'[i].id == id && fs'[j].id == id;
    }
    if f.id in collapsed {
      var i :| 0 <= i < |fs| && fs[i] == collapsed[f.id] && BestAt(fs, i);
      assert fs'[i].id == f.id && fs'[|fs|].id == f.id;
    }
    if Repeats(fs', id) {
      var i, j :| 0 <= i < j < |fs'| && fs'[i].id == id && fs'[j].id == id;
      if j == |fs| { assert fs[i] in fs; } else { assert fs[i].id == id && fs[j].id == id; }
    }
  }

  lemma CollapsedIsBest(fs: seq<Finding>, collapsed: map<string, Finding>, f: Finding)
    requires CollapsedTo(fs, collapsed)
    ensures f in collapsed.Values <==> IsBest(fs, f)
  {
    if IsBest(fs, f) {
      assert f in fs;
      BestUnique(fs, f, collapsed[f.id]);
    }
  }

  /** The ids met more than once, each listed once. */
  ghost predicate RepeatsAre(fs: seq<Finding>, ids: seq<string>) {
    Distinct(ids) && forall id :: id in ids <==> Repeats(fs, id)
  }

  lemma RepeatsGrow(fs: seq<Finding>, ids: seq<string>, collapsed: map<string, Finding>, f: Finding)
    requires CollapsedTo(fs, collapsed) && RepeatsAre(fs, ids)
    ensures RepeatsAre(fs + [f], if f.id in collapsed && f.id !in ids then ids + [f.id] else ids)
  {
    forall id ensures Repeats(fs + [f], id) <==> Repeats(fs, id) || (id == f.id && f.id in collapsed) {
      Repeat(fs, collapsed, f, id);
    }
  }

  /** The loop over the elements: one finding per id, the first of the most severe; None on any bad element. */
  method CollapseAll(items: seq<Json>, check: string, naming: Naming)
    returns (ok: bool, collapsed: map<string, Finding>, duplicateIds: seq<string>)
    ensures ok <==> ParseAll(items, check, naming).Some?
    ensures ok ==> CollapsedTo(ParseAll(items, check, naming).value, collapsed)
    ensures ok ==> RepeatsAre(ParseAll(items, check, naming).value, duplicateIds)
  {
    collapsed, duplicateIds := map[], [];
    ghost var fs: seq<Finding> := [];
    for i := 0 to |items|
      invariant ParseAll(items[..i], check, naming) == Some(fs)
      invariant CollapsedTo(fs, collapsed) && RepeatsAre(fs, duplicateIds)
    {
      assert items[..i + 1][..i] == items[..i];
      var finding := ParseFinding(items[i], check, naming);
      if finding.None? {
        ParseAllPrefix(items, check, naming, i + 1);
        return false, map[], [];
      }
      var f := finding.value;
      Collapse(fs, collapsed, f);
      RepeatsGrow(fs, duplicateIds, collapsed, f);
      if f.id !in collapsed {
        collapsed := collapsed[f.id := f];
      } else {
        if f.id !in duplicateIds {
          duplicateIds := duplicateIds + [f.id];
        }
        if Rank(f.severity) > Rank(collapsed[f.id].severity) {
          collapsed := collapsed[f.id := f];
        }
      }
      fs := fs + [f];
    }
    assert items[..|items|] == items;
    ok := true;
  }

  /** `load_findings_manifest_full`: `None` exactly for an unverifiable document, otherwise one finding per id. */
  method LoadManifest(raw: Json, naming: Naming) returns (m: Option<Manifest>)
    ensures m.Some? <==>
      ManifestHeader(raw) && ParseAll(Field(raw.fields, "findings").items, Field(raw.fields, "check").s, naming).Some?
    ensures m.Some? ==>
      && m.value.check == Field(raw.fields, "check").s
      && IsManifest(ParseAll(Field(raw.fields, "findings").items, Field(raw.fields, "check").s, naming).value, m.value)
  {
    if !ManifestHeader(raw) {
      return None;
    }
    var check := Field(raw.fields, "check").s;
    var items := Field(raw.fields, "findings").items;
    var ok, collapsed, duplicateIds := CollapseAll(items, check, naming);
    if !ok {
      return None;
    }
    var findings := SortedBest(ParseAll(items, check, naming).value, collapsed);
    m := Some(Manifest(check, findings, duplicateIds));
  }

  method SortedBest(ghost fs: seq<Finding>, collapsed: map<string, Finding>) returns (findings: seq<Finding>)
    requires CollapsedTo(fs, collapsed)
    ensures Sorted(Before, findings) && forall f :: f in findings <==> IsBest(fs, f)
  {
    var values := ValuesOf(collapsed);
    forall f ensures f in values <==> IsBest(fs, f) {
      CollapsedIsBest(fs, collapsed, f);
    }
    BeforeTotal(Elements(values));
    SortSorted(Before, values);
    findings := Sort(Before, values);
  }

  method ValuesOf(collapsed: map<string, Finding>) returns (values: seq<Finding>)
    requires forall id :: id in collapsed ==> collapsed[id].id == id
    ensures Distinct(values) && UniqueIds(Elements(values))
    ensures forall f :: f in values <==> f in collapsed.Values
  {
    values := [];
    var todo := collapsed.Keys;
    while todo != {}
      invariant todo <= collapsed.Keys && Distinct(values)
      invariant forall f :: f in values <==> f.id in collapsed && f.id !in todo && collapsed[f.id] == f
    {
      var id :| id in todo;
      todo := todo - {id};
      values := values + [collapsed[id]];
    }
  }

  /** At most one distinct finding of each id is most severe. */
  ghost predicate Unambiguous(fs: seq<Finding>) {
    forall i, j :: 0 <= i < |fs| && 0 <= j < |fs| && Topmost(fs, i) && Topmost(fs, j) && fs[i].id == fs[j].id ==> fs[i] == fs[j]
  }

  ghost predicate Topmost(fs: seq<Finding>, i: nat)
    requires i < |fs|
  {
    forall j :: 0 <= j < |fs| && fs[j].id == fs[i].id ==> Rank(fs[j].severity) <= Rank(fs[i].severity)
  }

  /** The manifest keeps the same findings however the report lists them. */
  ghost predicate OrderIndependent(fs: seq<Finding>) {
    forall other, f :: multiset(other) == multiset(fs) ==> (IsBest(fs, f) <==> IsBest(other, f))
  }

  lemma {:induction false} FirstTop(fs: seq<Finding>, i: nat) returns (b: nat)
    requires i < |fs| && Topmost(fs, i)
    ensures b <= i && fs[b].id == fs[i].id && fs[b].severity == fs[i].severity && BestAt(fs, b)
    decreases i
  {
    if j :| 0 <= j < i && fs[j].id == fs[i].id && fs[j].severity == fs[i].severity {
      b := FirstTop(fs, j);
    } else {
      b := i;
    }
  }

  lemma SameElements(p: seq<Finding>, q: seq<Finding>)
    requires multiset(p) == multiset(q)
    ensures forall f :: f in p <==> f in q
  {
    assert forall f :: f in p <==> f in multiset(p);
    assert forall f :: f in q <==> f in multiset(q);
  }

  lemma BestCarriesOver(p: seq<Finding>, q: seq<Finding>, f: Finding)
    requires multiset(p) == multiset(q) && Unambiguous(p) && IsBest(q, f)
    ensures IsBest(p, f)
  {
    SameElements(p, q);
    var k :| 0 <= k < |q| && q[k] == f && BestAt(q, k);
    assert f in p;
    var i :| 0 <= i < |p| && p[i] == f;
    assert Topmost(p, i) by {
      forall j | 0 <= j < |p| && p[j].id == f.id ensures Rank(p[j].severity) <= Rank(f.severity) {
        assert p[j] in q;
      }
    }
    var b := FirstTop(p, i);
    assert Topmost(p, b);
  }

  lemma UnambiguousCarriesOver(p: seq<Finding>, q: seq<Finding>)
    requires multiset(p) == multiset(q) && Unambiguous(p)
    ensures Unambiguous(q)
  {
    SameElements(p, q);
    forall i, j | 0 <= i < |q| && 0 <= j < |q| && Topmost(q, i) && Topmost(q, j) && q[i].id == q[j].id
      ensures q[i] == q[j]
    {
      assert q[i] in p && q[j] in p;
      var i' :| 0 <= i' < |p| && p[i'] == q[i];
      var j' :| 0 <= j' < |p| && p[j'] == q[j];
      assert Topmost(p, i') by {
        forall k | 0 <= k < |p| && p[k].id == p[i'].id ensures Rank(p[k].severity) <= Rank(p[i'].severity) {
          assert p[k] in q;
        }
      }
      assert Topmost(p, j') by {
        forall k | 0 <= k < |p| && p[k].id == p[j'].id ensures Rank(p[k].severity) <= Rank(p[j'].severity) {
          assert p[k] in q;
        }
      }
    }
  }

  lemma ClashDependsOnOrder(fs: seq<Finding>, i: nat, j: nat)
    requires i < |fs| && j < |fs| && Topmost(fs, i) && Topmost(fs, j) && fs[i].id == fs[j].id && fs[i] != fs[j]
    ensures !OrderIndependent(fs)
  {
    var b := FirstTop(fs, i);
    var c := if fs[b] == fs[i] then j else i;
    var other := MovedToFront(fs, c);
    MoveToFront(fs, c);
    assert IsBest(other, other[0]);
    assert IsBest(fs, fs[b]);
    if IsBest(fs, fs[c]) {
      BestUnique(fs, fs[b], fs[c]);
    }
  }

  function MovedToFront(fs: seq<Finding>, c: nat): seq<Finding>
    requires c < |fs|
  {
    [fs[c]] + fs[..c] + fs[c + 1..]
  }

  lemma MoveToFront(fs: seq<Finding>, c: nat)
    requires c < |fs| && Topmost(fs, c)
    ensures multiset(MovedToFront(fs, c)) == multiset(fs)
    ensures BestAt(MovedToFront(fs, c), 0)
  {
    var other := MovedToFront(fs, c);
    assert fs == fs[..c] + [fs[c]] + fs[c + 1..];
    assert multiset(other) == multiset(fs);
    SameElements(fs, other);
    forall k | 0 <= k < |other| && other[k].id == other[0].id ensures Rank(other[k].severity) <= Rank(other[0].severity) {
      assert other[k] in fs;
    }
  }

  /** Exactly when the report's order does not matter. */
  lemma OrderMattersOnlyOnClashes(fs: seq<Finding>)
    ensures OrderIndependent(fs) <==> Unambiguous(fs)
  {
    if Unambiguous(fs) {
      forall other, f | multiset(other) == multiset(fs) ensures IsBest(fs, f) <==> IsBest(other, f) {
        UnambiguousCarriesOver(fs, other);
        if IsBest(other, f) { BestCarriesOver(fs, other, f); }
        if IsBest(fs, f) { BestCarriesOver(other, fs, f); }
      }
    } else {
      var i, j :| 0 <= i < |fs| && 0 <= j < |fs| && Topmost(fs, i) && Topmost(fs, j) && fs[i].id == fs[j].id && fs[i] != fs[j];
      ClashDependsOnOrder(fs, i, j);
    }
  }

  // -- saved ledger ----------------------------------------------------------------

  function StateName(s: EntryState): string {
    if s == Open then "open" else "resolved"
  }

  function EntryToJson(e: Entry): Json {
    JObj(map[
           "kind" := JStr(e.kind), "location" := JStr(e.location), "severity" := JStr(SeverityName(e.severity)),
           "state" := JStr(StateName(e.state)), "first_seen" := JStr(e.firstSeen), "last_seen" := JStr(e.lastSeen),
           "resolved_at" := FromOptString(e.resolvedAt), "attempts" := JInt(e.attempts),
           "last_dispatched_run" := FromOptString(e.lastDispatchedRun), "queued" := JBool(e.queued)])
  }

  function EntriesToJson(entries: map<string, Entry>): Doc {
    map id | id in entries :: EntryToJson(entries[id])
  }

  /** `_ledger_to_dict`. */
  function LedgerToJson(l: Ledger): Json {
    JObj(map[
           "version" := JInt(l.version), "job" := JStr(l.job), "updated" := FromOptString(l.updated),
           "runs" := JInt(l.runs), "entries" := JObj(EntriesToJson(l.entries))])
  }

  function Default(d: Doc, key: string, absent: Json): Json {
    if key in d then d[key] else absent
  }

  /** `_entry_from_dict`. */
  function EntryFromJson(raw: Json): Option<Entry> {
    if !raw.JObj? then None
    else
      var d := raw.fields;
      var kind, location, severity := Field(d, "kind"), Field(d, "location"), Field(d, "severity");
      var state, firstSeen, lastSeen := Field(d, "state"), Field(d, "first_seen"), Field(d, "last_seen");
      if !(IsText(kind) && IsText(location) && IsText(severity) && IsText(state) && IsText(firstSeen) && IsText(lastSeen)) then None
      else if SeverityOf(severity.s).None? || state.s !in {"open", "resolved"} then None
      else
        var attempts := Default(d, "attempts", JInt(0));
        if !attempts.JInt? || attempts.n < 0 then None
        else if !IsOptString(Field(d, "resolved_at")) || !IsOptString(Field(d, "last_dispatched_run")) then None
        else
          var queued := Default(d, "queued", JBool(false));
          if !queued.JBool? then None
          else
            Some(Entry(kind.s, location.s, SeverityOf(severity.s).value, if state.s == "open" then Open else Resolved,
                       firstSeen.s, lastSeen.s, OptString(Field(d, "resolved_at")), attempts.n,
                       OptString(Field(d, "last_dispatched_run")), queued.b))
  }

  /** `load_ledger` after `json.loads`; `None` means corrupt. */
  method LoadLedger(raw: Json) returns (l: Option<Ledger>)
    ensures l == ParseLedger(raw)
  {
    if !raw.JObj? || !IsOne(Field(raw.fields, "version")) {
      return None;
    }
    var job := Field(raw.fields, "job");
    if !job.JStr? {
      return None;
    }
    var entriesRaw := Field(raw.fields, "entries");
    if !entriesRaw.JObj? {
      return None;
    }
    var entries: map<string, Entry> := map[];
    var todo := entriesRaw.fields.Keys;
    while todo != {}
      invariant todo <= entriesRaw.fields.Keys
      invariant entries.Keys == entriesRaw.fields.Keys - todo
      invariant forall id :: id in entries ==> EntryFromJson(entriesRaw.fields[id]) == Some(entries[id])
    {
      var id :| id in todo;
      todo := todo - {id};
      var entry := EntryFromJson(entriesRaw.fields[id]);
      if entry.None? {
        return None;
      }
      entries := entries[id := entry.value];
    }
    assert AllEntriesParse(entriesRaw.fields) && entries == ParsedEntries(entriesRaw.fields);
    var runs := Default(raw.fields, "runs", JInt(0));
    if !runs.JInt? || runs.n < 0 {
      return None;
    }
    var updated := Field(raw.fields, "updated");
    if !IsOptString(updated) {
      return None;
    }
    l := Some(Ledger(job.s, entries, 1, OptString(updated), runs.n));
  }

  predicate AllEntriesParse(raw: Doc) {
    forall id :: id in raw ==> EntryFromJson(raw[id]).Some?
  }

  function ParsedEntries(raw: Doc): map<string, Entry>
    requires AllEntriesParse(raw)
  {
    map id | id in raw :: EntryFromJson(raw[id]).value
  }

  /** What `load_ledger` accepts and what it makes of it. */
  function ParseLedger(raw: Json): Option<Ledger> {
    if !(&& raw.JObj? && IsOne(Field(raw.fields, "version")) && Field(raw.fields, "job").JStr?
         && Field(raw.fields, "entries").JObj? && AllEntriesParse(Field(raw.fields, "entries").fields)
         && Default(raw.fields, "runs", JInt(0)).JInt? && Default(raw.fields, "runs", JInt(0)).n >= 0
         && IsOptString(Field(raw.fields, "updated")))
    then None
    else
      Some(Ledger(Field(raw.fields, "job").s, ParsedEntries(Field(raw.fields, "entries").fields), 1,
                  OptString(Field(raw.fields, "updated")), Default(raw.fields, "runs", JInt(0)).n))
  }

  predicate WellFormedEntry(e: Entry) {
    e.kind != "" && e.location != "" && e.firstSeen != "" && e.lastSeen != "" && e.attempts >= 0
  }

  predicate WellFormed(l: Ledger) {
    l.version == 1 && l.runs >= 0 && forall id :: id in l.entries ==> WellFormedEntry(l.entries[id])
  }

  /** What an entry is saved as: each field under its own name, severity and state in words. */
  lemma SavedEntryReads(e: Entry)
    ensures var d := EntryToJson(e).fields;
            && Field(d, "kind") == JStr(e.kind) && Field(d, "location") == JStr(e.location)
            && Field(d, "first_seen") == JStr(e.firstSeen) && Field(d, "last_seen") == JStr(e.lastSeen)
            && Field(d, "attempts") == JInt(e.attempts) && Field(d, "queued") == JBool(e.queued)
            && Field(d, "resolved_at") == (if e.resolvedAt.Some? then JStr(e.resolvedAt.value) else JNull)
            && Field(d, "last_dispatched_run") == (if e.lastDispatchedRun.Some? then JStr(e.lastDispatchedRun.value) else JNull)
  {
  }

  lemma SavedEntryWords(e: Entry)
    ensures var d := EntryToJson(e).fields;
            && Field(d, "severity") == JStr(if e.severity == Low then "low" else if e.severity == Medium then "medium" else "high")
            && Field(d, "state") == JStr(if e.state == Open then "open" else "resolved")
  {
  }

  lemma EntryRoundTrip(e: Entry)
    ensures EntryFromJson(EntryToJson(e)) == if WellFormedEntry(e) then Some(e) else None
  {
    var d := EntryToJson(e).fields;
    assert d["severity"] == JStr(SeverityName(e.severity)) && SeverityOf(SeverityName(e.severity)) == Some(e.severity);
    assert d["state"] == JStr(StateName(e.state));
  }

  lemma EntriesRoundTrip(entries: map<string, Entry>)
    ensures AllEntriesParse(EntriesToJson(entries)) <==> forall id :: id in entries ==> WellFormedEntry(entries[id])
    ensures AllEntriesParse(EntriesToJson(entries)) ==> ParsedEntries(EntriesToJson(entries)) == entries
  {
    var saved := EntriesToJson(entries);
    forall id | id in entries
      ensures id in saved && EntryFromJson(saved[id]) == if WellFormedEntry(entries[id]) then Some(entries[id]) else None
    {
      EntryRoundTrip(entries[id]);
    }
  }

  lemma LedgerFields(l: Ledger)
    ensures var d := LedgerToJson(l).fields;
            && Field(d, "version") == JInt(l.version) && Field(d, "job") == JStr(l.job)
            && Field(d, "updated") == FromOptString(l.updated) && Default(d, "runs", JInt(0)) == JInt(l.runs)
            && Field(d, "entries") == JObj(EntriesToJson(l.entries))
  {
  }

  /** Saving and loading gives the ledger back for exactly the well-formed ledgers; any other is read as corrupt
      or with its version reset. */
  lemma LedgerRoundTrip(l: Ledger)
    ensures ParseLedger(LedgerToJson(l)) == Some(l) <==> WellFormed(l)
  {
    LedgerFields(l);
    EntriesRoundTrip(l.entries);
  }

  /** Whatever loads is well formed, so a loaded ledger can always be saved and loaded again. */
  lemma LoadedIsWellFormed(raw: Json)
    ensures ParseLedger(raw).Some? ==> WellFormed(ParseLedger(raw).value)
  {
    if ParseLedger(raw).Some? {
      var entries := Field(raw.fields, "entries").fields;
      forall id | id in ParsedEntries(entries) ensures WellFormedEntry(ParsedEntries(entries)[id]) {
        assert EntryFromJson(entries[id]).Some?;
      }
    }
  }

  /** Findings as a manifest yields them have a kind and a location. */
  predicate Reportable(fs: seq<Finding>) {
    forall f :: f in fs ==> f.kind != "" && f.location != ""
  }

  lemma ManifestIsReportable(items: seq<Json>, check: string, naming: Naming, m: Manifest)
    requires ParseAll(items, check, naming).Some? && IsManifest(ParseAll(items, check, naming).value, m)
    ensures Reportable(m.findings) && UniqueIds(Elements(m.findings))
  {
    var fs := ParseAll(items, check, naming).value;
    ParseAllMeans(items, check, naming);
    forall f | f in m.findings ensures f.kind != "" && f.location != "" {
      assert IsBest(fs, f);
      var i :| 0 <= i < |fs| && fs[i] == f && BestAt(fs, i);
      assert ParseFinding(items[i], check, naming) == Some(f);
    }
    forall f, g | f in Elements(m.findings) && g in Elements(m.findings) && f.id == g.id ensures f == g {
      BestUnique(fs, f, g);
    }
  }

  /** Every audit cycle over a loaded report keeps the ledger loadable. */
  lemma CycleKeepsWellFormed(epoch: string -> Option<int>, l: Ledger, c: Cycle, l': Ledger)
    requires CycleStep(epoch, l, c, l') && WellFormed(l)
    requires Reportable(c.findings) && c.stamp != ""
    ensures WellFormed(l')
  {
    CurrentMembers(c.findings);
    forall id | id in l'.entries ensures WellFormedEntry(l'.entries[id]) {
      assert Get(l'.entries, id) == Through(Get(l.entries, id), c, id, epoch);
    }
  }
}
