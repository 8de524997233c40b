/** The history's assumptions about lines and stamps can be met: a codec that renders every record with plain extras, and
    a stamp that sorts as the seconds do. */
module HistoryCodec {
  import opened Common
  import opened History
  import opened Json

  // -- numbers and texts in two digits, each code telling where it ends ---------------------------

  function Unary(n: nat): string {
    if n == 0 then "0" else "1" + Unary(n - 1)
  }

  function Digits(n: int): string {
    if n < 0 then "1" + Unary(-n) else "0" + Unary(n)
  }

  function Text(s: string): string {
    if s == "" then "0" else "1" + (Unary(s[0] as int) + Text(s[1..]))
  }

  lemma {:induction false} UnaryEnds(m: nat, n: nat, s: string, t: string)
    requires Unary(m) + s == Unary(n) + t
    ensures m == n && s == t
  {
    Behind(Unary(m), Unary(n), s, t);
    if m > 0 {
      assert Unary(m)[1..] == Unary(m - 1) && Unary(n)[1..] == Unary(n - 1);
      UnaryEnds(m - 1, n - 1, s, t);
    } else {
      assert Unary(m)[1..] + s == s && Unary(n)[1..] + t == t;
    }
  }

  /** Two texts that begin with the same character and are the same are the same behind it. */
  lemma Behind(a: string, b: string, s: string, t: string)
    requires a != "" && b != "" && a + s == b + t
    ensures a[0] == b[0] && a[1..] + s == b[1..] + t
  {
    assert a[0] == (a + s)[0] && b[0] == (b + t)[0];
    assert a[1..] + s == (a + s)[1..] && b[1..] + t == (b + t)[1..];
  }

  /** The same behind a first code `x`. */
  lemma BehindFirst(d: string, x: string, y: string, s: string)
    requires |d| == 1
    ensures (d + (x + y))[0] == d[0] && (d + (x + y))[1..] + s == x + (y + s)
  {
  }

  lemma DigitsEnd(m: int, n: int, s: string, t: string)
    requires Digits(m) + s == Digits(n) + t
    ensures m == n && s == t
  {
    Behind(Digits(m), Digits(n), s, t);
    assert Digits(m)[1..] == Unary(if m < 0 then -m else m) && Digits(n)[1..] == Unary(if n < 0 then -n else n);
    UnaryEnds(if m < 0 then -m else m, if n < 0 then -n else n, s, t);
  }

  lemma {:induction false} TextEnds(a: string, b: string, s: string, t: string)
    requires Text(a) + s == Text(b) + t
    ensures a == b && s == t
  {
    Behind(Text(a), Text(b), s, t);
    if a != "" && b != "" {
      BehindFirst("1", Unary(a[0] as int), Text(a[1..]), s);
      BehindFirst("1", Unary(b[0] as int), Text(b[1..]), t);
      UnaryEnds(a[0] as int, b[0] as int, Text(a[1..]) + s, Text(b[1..]) + t);
      TextEnds(a[1..], b[1..], s, t);
      assert a == [a[0]] + a[1..] && b == [b[0]] + b[1..];
    } else {
      assert Text(a)[1..] + s == s && Text(b)[1..] + t == t;
    }
  }

  // -- values ---------------------------------------------------------------------------------------

  ghost function Pick(keys: set<string>): (key: string)
    requires keys != {}
    ensures key in keys
  {
    var key :| key in keys; key
  }

  /** The keys, in some order. */
  ghost function Listed(keys: set<string>): (list: seq<string>)
    ensures forall key :: key in list <==> key in keys
  {
    if keys == {} then [] else [Pick(keys)] + Listed(keys - {Pick(keys)})
  }

  ghost function Value(j: Json): string
    decreases j
  {
    match j
    case JNull => Unary(0)
    case JBool(b) => Unary(if b then 1 else 2)
    case JInt(n) => Unary(3) + Digits(n)
    case JFloat(bits) => Unary(4) + Unary(bits)
    case JStr(s) => Unary(5) + Text(s)
    case JArr(items) => Unary(6) + Items(items)
    case JObj(fields) => Unary(7) + Fields(j, Listed(fields.Keys))
  }

  ghost function Items(items: seq<Json>): string
    decreases items
  {
    if items == [] then "0" else "1" + (Value(items[0]) + Items(items[1..]))
  }

  ghost function Fields(j: Json, keys: seq<string>): string
    requires j.JObj? && forall key :: key in keys ==> key in j.fields
    decreases j, |keys|
  {
    if keys == [] then "0" else "1" + (Text(keys[0]) + (Value(j.fields[keys[0]]) + Fields(j, keys[1..])))
  }

  function Tag(j: Json): nat {
    match j
    case JNull => 0
    case JBool(b) => if b then 1 else 2
    case JInt(_) => 3
    case JFloat(_) => 4
    case JStr(_) => 5
    case JArr(_) => 6
    case JObj(_) => 7
  }

  ghost function Body(j: Json): string
    decreases j, 0
  {
    match j
    case JNull => ""
    case JBool(_) => ""
    case JInt(n) => Digits(n)
    case JFloat(bits) => Unary(bits)
    case JStr(s) => Text(s)
    case JArr(items) => Items(items)
    case JObj(fields) => Fields(j, Listed(fields.Keys))
  }

  lemma ValueIs(j: Json, s: string)
    ensures Value(j) == Unary(Tag(j)) + Body(j) && Value(j) + s == Unary(Tag(j)) + (Body(j) + s)
  {
  }

  lemma {:induction false} ValueEnds(j: Json, l: Json, s: string, t: string)
    requires Value(j) + s == Value(l) + t
    ensures j == l && s == t
    decreases j, 3
  {
    ValueIs(j, s);
    ValueIs(l, t);
    UnaryEnds(Tag(j), Tag(l), Body(j) + s, Body(l) + t);
    BodyEnds(j, l, s, t);
  }

  lemma {:induction false} BodyEnds(j: Json, l: Json, s: string, t: string)
    requires Tag(j) == Tag(l) && Body(j) + s == Body(l) + t
    ensures j == l && s == t
    decreases j, 2
  {
    match j
    case JNull => assert "" + s == s && "" + t == t;
    case JBool(_) => assert "" + s == s && "" + t == t;
    case JInt(n) => DigitsEnd(n, l.n, s, t);
    case JFloat(bits) => UnaryEnds(bits, l.bits, s, t);
    case JStr(text) => TextEnds(text, l.s, s, t);
    case JArr(items) => ItemsEnd(items, l.items, s, t);
    case JObj(fields) => ObjectEnds(j, l, s, t);
  }

  lemma {:induction false} ObjectEnds(j: Json, l: Json, s: string, t: string)
    requires j.JObj? && l.JObj? && Body(j) + s == Body(l) + t
    ensures j == l && s == t
    decreases j, 1
  {
    FieldsEnd(j, l, Listed(j.fields.Keys), Listed(l.fields.Keys), s, t);
    SameFields(j.fields, l.fields);
  }

  lemma SameFields(m: map<string, Json>, n: map<string, Json>)
    requires Listed(m.Keys) == Listed(n.Keys) && forall key :: key in Listed(m.Keys) ==> m[key] == n[key]
    ensures m == n
  {
    assert forall key :: key in m <==> key in n;
  }

  lemma {:induction false} ItemsEnd(a: seq<Json>, b: seq<Json>, s: string, t: string)
    requires Items(a) + s == Items(b) + t
    ensures a == b && s == t
    decreases a
  {
    Behind(Items(a), Items(b), s, t);
    if a != [] && b != [] {
      BehindFirst("1", Value(a[0]), Items(a[1..]), s);
      BehindFirst("1", Value(b[0]), Items(b[1..]), t);
      ValueEnds(a[0], b[0], Items(a[1..]) + s, Items(b[1..]) + t);
      ItemsEnd(a[1..], b[1..], s, t);
      assert a == [a[0]] + a[1..] && b == [b[0]] + b[1..];
    } else {
      assert Items(a)[1..] + s == s && Items(b)[1..] + t == t;
    }
  }

  lemma {:induction false} FieldsEnd(j: Json, l: Json, a: seq<string>, b: seq<string>, s: string, t: string)
    requires j.JObj? && l.JObj? && (forall key :: key in a ==> key in j.fields) && (forall key :: key in b ==> key in l.fields)
    requires Fields(j, a) + s == Fields(l, b) + t
    ensures a == b && s == t && forall key :: key in a ==> j.fields[key] == l.fields[key]
    decreases j, 0, |a|
  {
    Behind(Fields(j, a), Fields(l, b), s, t);
    if a != [] && b != [] {
      var ra, rb := Fields(j, a[1..]), Fields(l, b[1..]);
      FieldSplits(a[0], Value(j.fields[a[0]]), ra, s, b[0], Value(l.fields[b[0]]), rb, t);
      ValueEnds(j.fields[a[0]], l.fields[b[0]], ra + s, rb + t);
      FieldsEnd(j, l, a[1..], b[1..], s, t);
      assert a == [a[0]] + a[1..] && b == [b[0]] + b[1..];
    } else {
      assert Fields(j, a)[1..] + s == s && Fields(l, b)[1..] + t == t;
    }
  }

  /** Behind the same first field the rest is the same. */
  lemma FieldSplits(key: string, value: string, rest: string, s: string, key': string, value': string, rest': string, t: string)
    requires ("1" + (Text(key) + (value + rest))) + s == ("1" + (Text(key') + (value' + rest'))) + t
    ensures key == key' && value + (rest + s) == value' + (rest' + t)
  {
    Behind("1" + (Text(key) + (value + rest)), "1" + (Text(key') + (value' + rest')), s, t);
    BehindFirst("1", Text(key), value + rest, s);
    BehindFirst("1", Text(key'), value' + rest', t);
    TextEnds(key, key', value + rest + s, value' + rest' + t);
    assert value + rest + s == value + (rest + s) && value' + rest' + t == value' + (rest' + t);
  }

  // -- records --------------------------------------------------------------------------------------

  function Optional(s: Option<string>): string {
    if s.None? then "0" else "1" + Text(s.value)
  }

  lemma OptionalEnds(a: Option<string>, b: Option<string>, s: string, t: string)
    requires Optional(a) + s == Optional(b) + t
    ensures a == b && s == t
  {
    Behind(Optional(a), Optional(b), s, t);
    if a.Some? && b.Some? {
      assert Optional(a)[1..] == Text(a.value) && Optional(b)[1..] == Text(b.value);
      TextEnds(a.value, b.value, s, t);
    } else {
      assert Optional(a)[1..] + s == s && Optional(b)[1..] + t == t;
    }
  }

  function StateNumber(state: State): nat {
    match state
    case Registered => 0
    case Scheduled => 1
    case Running => 2
    case Done => 3
    case Failed => 4
    case Skipped => 5
    case Missed => 6
    case InterruptedUnknown => 7
  }

  ghost function Code(r: Record): string {
    Digits(r.ts) + (Text(r.job) + (Unary(StateNumber(r.state)) + (Optional(r.runId) + Value(JObj(r.extra)))))
  }

  lemma CodeIsUnique(q: Record, r: Record)
    requires Code(q) == Code(r)
    ensures q == r
  {
    var q4, r4 := Value(JObj(q.extra)), Value(JObj(r.extra));
    var q3, r3 := Optional(q.runId) + q4, Optional(r.runId) + r4;
    var q2, r2 := Unary(StateNumber(q.state)) + q3, Unary(StateNumber(r.state)) + r3;
    DigitsEnd(q.ts, r.ts, Text(q.job) + q2, Text(r.job) + r2);
    TextEnds(q.job, r.job, q2, r2);
    UnaryEnds(StateNumber(q.state), StateNumber(r.state), q3, r3);
    OptionalEnds(q.runId, r.runId, q4, r4);
    assert q4 + "" == q4 && r4 + "" == r4;
    ValueEnds(JObj(q.extra), JObj(r.extra), "", "");
  }

  // -- no brace inside a code -----------------------------------------------------------------------

  predicate Bare(s: string) {
    forall i :: 0 <= i < |s| ==> s[i] == '0' || s[i] == '1'
  }

  lemma {:induction false} UnaryIsBare(n: nat)
    ensures Bare(Unary(n))
  {
    if n > 0 {
      UnaryIsBare(n - 1);
    }
  }

  lemma {:induction false} TextIsBare(s: string)
    ensures Bare(Text(s))
  {
    if s != "" {
      UnaryIsBare(s[0] as int);
      TextIsBare(s[1..]);
    }
  }

  lemma DigitsAreBare(n: int)
    ensures Bare(Digits(n))
  {
    UnaryIsBare(if n < 0 then -n else n);
  }

  lemma {:induction false} ValueIsBare(j: Json)
    ensures Bare(Value(j))
    decreases j
  {
    UnaryIsBare(Tag(j));
    assert Value(j) == Unary(Tag(j)) + Body(j);
    match j
    case JNull =>
    case JBool(_) =>
    case JInt(n) => DigitsAreBare(n);
    case JFloat(bits) => UnaryIsBare(bits);
    case JStr(s) => TextIsBare(s);
    case JArr(items) => ItemsAreBare(items);
    case JObj(fields) => FieldsAreBare(j, Listed(fields.Keys));
  }

  lemma {:induction false} ItemsAreBare(items: seq<Json>)
    ensures Bare(Items(items))
    decreases items
  {
    if items != [] {
      ValueIsBare(items[0]);
      ItemsAreBare(items[1..]);
    }
  }

  lemma {:induction false} FieldsAreBare(j: Json, keys: seq<string>)
    requires j.JObj? && forall key :: key in keys ==> key in j.fields
    ensures Bare(Fields(j, keys))
    decreases j, |keys|
  {
    if keys != [] {
      TextIsBare(keys[0]);
      ValueIsBare(j.fields[keys[0]]);
      FieldsAreBare(j, keys[1..]);
    }
  }

  lemma CodeIsBare(r: Record)
    ensures Bare(Code(r))
  {
    DigitsAreBare(r.ts);
    TextIsBare(r.job);
    UnaryIsBare(StateNumber(r.state));
    if r.runId.Some? {
      TextIsBare(r.runId.value);
    }
    ValueIsBare(JObj(r.extra));
  }

  // -- the codec ------------------------------------------------------------------------------------

  ghost function Render(r: Record): string {
    "{" + Code(r) + "}"
  }

  ghost function Parse(line: string): Option<Record> {
    if r :| Render(r) == line then Some(r) else None
  }

  lemma ParseRender(r: Record)
    ensures Parse(Render(r)) == Some(r)
  {
    assert Render(r) == Render(r);
    var q := Parse(Render(r)).value;
    assert Render(q)[1..|Render(q)| - 1] == Code(q) && Render(r)[1..|Render(r)| - 1] == Code(r);
    CodeIsUnique(q, r);
  }

  /** A brace opens a line and one closes it, and there is none in between. */
  lemma Braces(r: Record)
    ensures var line := Render(r);
            && line[0] == '{' && line[|line| - 1] == '}'
            && (forall i :: 0 < i < |line| ==> line[i] != '{') && (forall i :: 0 <= i < |line| - 1 ==> line[i] != '}')
            && '\n' !in line
  {
    CodeIsBare(r);
    forall i | 0 < i < |Render(r)| - 1 ensures Render(r)[i] == Code(r)[i - 1] {
    }
  }

  ghost function Braced(): Codec {
    Codec((r: Record) => Render(r), (line: string) => Parse(line), (r: Record) => Plain(r))
  }

  lemma BracedIsFaithful()
    ensures Faithful(Braced())
  {
    forall r: Record ensures Render(r) != "" && '\n' !in Render(r) && Parse(Render(r)) == Some(r) {
      Braces(r);
      ParseRender(r);
    }
  }

  /** A line cut short has no closing brace; several pieces have an opening one inside. */
  lemma DebrisIsNoLine(pieces: seq<string>, r: Record)
    requires Debris(Braced(), pieces)
    ensures Joined(pieces) != Render(r)
  {
    Braces(r);
    var n := |pieces| - 1;
    if n == 0 {
      JoinedOne(pieces[0]);
      assert pieces == [pieces[0]];
      var q, k: nat :| Plain(q) && 0 < k < |Render(q)| && pieces[0] == Render(q)[..k];
      Braces(q);
    } else {
      assert Begins(Braced(), pieces[n]) && Begins(Braced(), pieces[n - 1]);
      FirstBrace(pieces[n]);
      FirstBrace(pieces[n - 1]);
      assert Joined(pieces) == Joined(pieces[..n]) + pieces[n];
      assert Joined(pieces[..n]) == Joined(pieces[..n - 1]) + pieces[n - 1] by { assert pieces[..n][..n - 1] == pieces[..n - 1]; }
      assert Joined(pieces)[|Joined(pieces[..n])|] == '{';
    }
  }

  lemma FirstBrace(piece: string)
    requires Begins(Braced(), piece)
    ensures piece != "" && piece[0] == '{'
  {
    var r, k: nat :| Plain(r) && 0 < k <= |Render(r)| && piece == Render(r)[..k];
    Braces(r);
  }

  lemma BracedIsOneObjectPerLine()
    ensures OneObjectPerLine(Braced())
  {
    forall pieces | Debris(Braced(), pieces) ensures Parse(Joined(pieces)) == None {
      forall r: Record ensures Render(r) != Joined(pieces) {
        DebrisIsNoLine(pieces, r);
      }
    }
  }

  // -- stamps ---------------------------------------------------------------------------------------

  /** More letters are later from 0 on, earlier before. */
  function Stamp(second: int): string {
    if second >= 0 then "b" + Letters(second) else Letters(-second) + "b"
  }

  function Letters(n: nat): string {
    if n == 0 then "" else "a" + Letters(n - 1)
  }

  lemma {:induction false} MoreLetters(m: nat, n: nat)
    requires m < n
    ensures StringLess("b" + Letters(m), "b" + Letters(n))
  {
    assert ("b" + Letters(m))[1..] == Letters(m) && ("b" + Letters(n))[1..] == Letters(n);
    LettersLess(m, n);
  }

  lemma {:induction false} LettersLess(m: nat, n: nat)
    requires m < n
    ensures StringLess(Letters(m), Letters(n))
  {
    if m > 0 {
      LettersLess(m - 1, n - 1);
    }
  }

  lemma {:induction false} FewerLetters(m: nat, n: nat)
    requires m < n
    ensures StringLess(Letters(n) + "b", Letters(m) + "b")
  {
    if m > 0 {
      FewerLetters(m - 1, n - 1);
      assert (Letters(m) + "b")[1..] == Letters(m - 1) + "b" && (Letters(n) + "b")[1..] == Letters(n - 1) + "b";
    }
  }

  lemma StampIsMonotone()
    ensures Monotone(Stamp)
  {
    forall s, t | s < t ensures StringLess(Stamp(s), Stamp(t)) {
      if s >= 0 {
        MoreLetters(s, t);
      } else if t < 0 {
        FewerLetters(-t, -s);
      }
    }
  }

  // -- what this gives ------------------------------------------------------------------------------

  /** All that the history's theorems assume holds of this codec and these stamps, for all records with plain extras. */
  lemma AssumptionsCanBeMet() returns (c: Codec, stamp: int -> string)
    ensures Faithful(c) && OneObjectPerLine(c) && Monotone(stamp) && forall r :: c.writes(r) <==> Plain(r)
  {
    c, stamp := Braced(), Stamp;
    BracedIsFaithful();
    BracedIsOneObjectPerLine();
    StampIsMonotone();
  }

  /** A record whose newline is missing, and the one appended behind it: there was one, and there is none. */
  lemma TwoRecordsLost() returns (c: Codec, cut: Record, r: Record)
    ensures Faithful(c) && OneObjectPerLine(c) && c.writes(cut) && c.writes(r) && cut != r
    ensures ReadText(c, c.render(cut)) == [cut] && ReadText(c, c.render(cut) + c.render(r) + "\n") == []
  {
    c := Braced();
    BracedIsFaithful();
    BracedIsOneObjectPerLine();
    cut, r := Record(0, "job", Running, Some("id"), map[]), Record(1, "job", Done, Some("id"), map[]);
    MissingNewlineLosesBoth(c, cut, r);
  }
}
