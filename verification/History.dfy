/** The run history (`history.py`): an append-only text log that rotates, and the folds read back from it. */
module History {
  import opened Common
  import opened Sorting
  import opened Json

  datatype State = Registered | Scheduled | Running | Done | Failed | Skipped | Missed | InterruptedUnknown

  predicate Terminal(s: State) {
    s in {Done, Failed, Skipped, Missed, InterruptedUnknown}
  }

  /** One line of the log; `ts` in microseconds since the epoch. */
  datatype Record = Record(ts: int, job: string, state: State, runId: Option<string>, extra: Doc)

  const CORE_KEYS := {"ts", "job", "state", "run_id"}

  /** No `extra` key shadows a core field, as every writer's `HistoryExtra` guarantees. */
  predicate Plain(r: Record) {
    r.extra.Keys !! CORE_KEYS
  }

  // -- the text of one file ----------------------------------------------------------

  /** `to_json_line` and the line parser of `_read_file` (strip, JSON, field checks), left uninterpreted; `writes` are
      the records the programs write. */
  datatype Codec = Codec(render: Record -> string, parse: string -> Option<Record>, writes: Record -> bool)

  /** What is written reads back, and is one line. */
  ghost predicate Faithful(c: Codec) {
    forall r {:trigger c.render(r)} :: c.writes(r) ==> c.render(r) != "" && '\n' !in c.render(r) && c.parse(c.render(r)) == Some(r)
  }

  /** The beginning of a line, up to all of it. */
  ghost predicate Begins(c: Codec, piece: string) {
    exists r, k: nat :: c.writes(r) && 0 < k <= |c.render(r)| && piece == c.render(r)[..k]
  }

  /** The beginning of a line, but not all of it. */
  ghost predicate CutShort(c: Codec, piece: string) {
    exists r, k: nat :: c.writes(r) && 0 < k < |c.render(r)| && piece == c.render(r)[..k]
  }

  ghost predicate Pieces(c: Codec, pieces: seq<string>) {
    forall i :: 0 <= i < |pieces| ==> Begins(c, pieces[i])
  }

  function Joined(pieces: seq<string>): string {
    if pieces == [] then "" else Joined(pieces[..|pieces| - 1]) + pieces[|pieces| - 1]
  }

  /** A line cut short, or several run together, each whole or cut short. */
  ghost predicate Debris(c: Codec, pieces: seq<string>) {
    Pieces(c, pieces) && pieces != [] && (|pieces| == 1 ==> CutShort(c, pieces[0]))
  }

  /** A line is one JSON object: cut short, or with more lines or beginnings of lines right behind it, it is none. */
  ghost predicate OneObjectPerLine(c: Codec) {
    forall pieces {:trigger Debris(c, pieces)} :: Debris(c, pieces) ==> c.parse(Joined(pieces)) == None
  }

  /** What one line gives: blank and unparseable lines are skipped. */
  function OfLine(c: Codec, line: string): seq<Record> {
    if line != "" && c.parse(line).Some? then [c.parse(line).value] else []
  }

  /** A text read so far: the records of its complete lines, and the unterminated tail. */
  datatype Scan = Scan(records: seq<Record>, tail: string)

  function ScanText(c: Codec, text: string): Scan {
    if text == "" then Scan([], "")
    else
      var before := ScanText(c, text[..|text| - 1]);
      if text[|text| - 1] == '\n' then Scan(before.records + OfLine(c, before.tail), "")
      else Scan(before.records, before.tail + [text[|text| - 1]])
  }

  /** `_read_file`: every line that parses, in order, the unterminated last one included. */
  function ReadText(c: Codec, text: string): seq<Record> {
    var s := ScanText(c, text);
    s.records + OfLine(c, s.tail)
  }

  /** Empty or newline-terminated: the next append starts a line of its own. */
  predicate Clean(text: string) {
    text == "" || text[|text| - 1] == '\n'
  }

  lemma {:induction false} ScanConcat(c: Codec, a: string, b: string)
    requires Clean(a)
    ensures ScanText(c, a + b) == Scan(ScanText(c, a).records + ScanText(c, b).records, ScanText(c, b).tail)
  {
    if b == "" {
      assert a + b == a;
    } else {
      assert (a + b)[..|a + b| - 1] == a + b[..|b| - 1];
      ScanConcat(c, a, b[..|b| - 1]);
    }
  }

  lemma {:induction false} ScanLine(c: Codec, line: string)
    requires '\n' !in line
    ensures ScanText(c, line) == Scan([], line)
  {
    if line != "" {
      ScanLine(c, line[..|line| - 1]);
      assert line == line[..|line| - 1] + [line[|line| - 1]];
    }
  }

  lemma ReadConcat(c: Codec, a: string, b: string)
    requires Clean(a)
    ensures ReadText(c, a + b) == ReadText(c, a) + ReadText(c, b)
  {
    ScanConcat(c, a, b);
    assert ScanText(c, a).tail == "";
  }

  lemma ReadLine(c: Codec, line: string)
    requires '\n' !in line
    ensures ReadText(c, line + "\n") == OfLine(c, line) == ReadText(c, line)
  {
    ScanLine(c, line);
    assert (line + "\n")[..|line|] == line;
  }

  lemma ReadAppended(c: Codec, text: string, r: Record)
    requires Faithful(c) && c.writes(r) && Clean(text)
    ensures ReadText(c, text + c.render(r) + "\n") == ReadText(c, text) + [r]
  {
    assert text + c.render(r) + "\n" == text + (c.render(r) + "\n");
    ReadConcat(c, text, c.render(r) + "\n");
    ReadLine(c, c.render(r));
  }

  /** A record appended behind an unterminated tail shares the tail's line. */
  lemma MergedLine(c: Codec, text: string, tail: string, r: Record)
    requires Faithful(c) && c.writes(r) && Clean(text) && '\n' !in tail
    ensures ReadText(c, text + tail + c.render(r) + "\n") == ReadText(c, text) + OfLine(c, tail + c.render(r))
    ensures ReadText(c, text + tail) == ReadText(c, text) + OfLine(c, tail)
  {
    var line := tail + c.render(r);
    assert text + tail + c.render(r) + "\n" == text + (line + "\n");
    ReadConcat(c, text, line + "\n");
    ReadLine(c, line);
    ReadConcat(c, text, tail);
    ReadLine(c, tail);
  }

  /** A clean text, and the first `k` characters of the line an append was adding when it was cut off. */
  function Torn(c: Codec, text: string, cut: Record, k: nat): string
    requires k <= |c.render(cut)| + 1
  {
    text + (c.render(cut) + "\n")[..k]
  }

  lemma TornTail(c: Codec, text: string, cut: Record, k: nat)
    requires Faithful(c) && c.writes(cut) && Clean(text) && k <= |c.render(cut)| + 1
    ensures Clean(Torn(c, text, cut, k)) <==> k == 0 || k == |c.render(cut)| + 1
    ensures k <= |c.render(cut)| ==> Torn(c, text, cut, k) == text + c.render(cut)[..k] && '\n' !in c.render(cut)[..k]
  {
    var line := c.render(cut) + "\n";
    assert k <= |c.render(cut)| ==> line[..k] == c.render(cut)[..k];
    if k > 0 {
      assert Torn(c, text, cut, k)[|text| + k - 1] == line[k - 1];
    }
  }

  lemma TwoPieces(c: Codec, cut: Record, k: nat, r: Record)
    requires Faithful(c) && OneObjectPerLine(c) && c.writes(cut) && c.writes(r) && 0 < k <= |c.render(cut)|
    ensures c.parse(c.render(cut)[..k] + c.render(r)) == None
  {
    var pieces := [c.render(cut)[..k], c.render(r)];
    assert c.render(r)[..|c.render(r)|] == c.render(r);
    JoinedOne(pieces[0]);
    JoinedMore([pieces[0]], pieces[1]);
    assert pieces == [pieces[0]] + [pieces[1]];
    assert Begins(c, pieces[0]) && Begins(c, pieces[1]) && Debris(c, pieces);
  }

  /** The append after a cut-off one adds exactly its record if and only if the file is empty or ends in a newline.
      Otherwise it is lost with the record cut off before it, even when only the newline was missing. */
  lemma TornTailSwallows(c: Codec, text: string, cut: Record, k: nat, r: Record)
    requires Faithful(c) && OneObjectPerLine(c) && c.writes(cut) && c.writes(r) && Clean(text) && k <= |c.render(cut)| + 1
    ensures var torn := Torn(c, text, cut, k);
            && (ReadText(c, torn + c.render(r) + "\n") == ReadText(c, torn) + [r] <==> Clean(torn))
            && (!Clean(torn) ==> ReadText(c, torn + c.render(r) + "\n") == ReadText(c, text))
  {
    var torn := Torn(c, text, cut, k);
    TornTail(c, text, cut, k);
    if Clean(torn) {
      ReadAppended(c, torn, r);
    } else {
      var tail := c.render(cut)[..k];
      MergedLine(c, text, tail, r);
      TwoPieces(c, cut, k, r);
      assert |ReadText(c, torn) + [r]| > |ReadText(c, text)|;
    }
  }

  /** Only the newline missing: what read back as one record reads as none after the next append. */
  lemma MissingNewlineLosesBoth(c: Codec, cut: Record, r: Record)
    requires Faithful(c) && OneObjectPerLine(c) && c.writes(cut) && c.writes(r)
    ensures ReadText(c, c.render(cut)) == [cut] && ReadText(c, c.render(cut) + c.render(r) + "\n") == []
  {
    var k := |c.render(cut)|;
    ReadLine(c, c.render(cut));
    TornTail(c, "", cut, k);
    assert Torn(c, "", cut, k) == c.render(cut);
    TornTailSwallows(c, "", cut, k, r);
  }

  // -- the directory: live file and rolls ----------------------------------------------

  /** Roll names sort as the seconds they stand for. */
  ghost predicate Monotone(stamp: int -> string) {
    forall s, t {:trigger StringLess(stamp(s), stamp(t))} :: s < t ==> StringLess(stamp(s), stamp(t))
  }

  const MICROS := 1_000_000

  function Second(now: int): int {
    now / MICROS
  }

  /** A roll: the second it was made, and the text moved into it. */
  datatype Roll = Roll(second: int, text: string)

  /** The records of the rolls, one roll after the other. */
  function RollRecords(c: Codec, shelf: seq<Roll>): seq<Record> {
    if shelf == [] then []
    else RollRecords(c, shelf[..|shelf| - 1]) + ReadText(c, shelf[|shelf| - 1].text)
  }

  /** The roll files on disk. */
  function Files(stamp: int -> string, shelf: seq<Roll>): map<string, string> {
    if shelf == [] then map[]
    else Files(stamp, shelf[..|shelf| - 1])[stamp(shelf[|shelf| - 1].second) := shelf[|shelf| - 1].text]
  }

  /** Their names in the order they were made. */
  function FileNames(stamp: int -> string, shelf: seq<Roll>): seq<string> {
    if shelf == [] then []
    else FileNames(stamp, shelf[..|shelf| - 1]) + [stamp(shelf[|shelf| - 1].second)]
  }

  /** Made at strictly increasing seconds, none after `second`. */
  predicate Ascending(shelf: seq<Roll>, second: int) {
    shelf != [] ==>
      var last := shelf[|shelf| - 1].second;
      last <= second && Ascending(shelf[..|shelf| - 1], last - 1)
  }

  /** A roll whose name is not taken yet is newer than all others. */
  lemma ShelfGrows(c: Codec, stamp: int -> string, shelf: seq<Roll>, second: int, text: string)
    requires Ascending(shelf, second) && stamp(second) !in Files(stamp, shelf)
    ensures var more := shelf + [Roll(second, text)];
            && Ascending(more, second) && Files(stamp, more) == Files(stamp, shelf)[stamp(second) := text]
            && RollRecords(c, more) == RollRecords(c, shelf) + ReadText(c, text)
  {
    var more := shelf + [Roll(second, text)];
    assert more[..|more| - 1] == shelf;
    if shelf != [] {
      assert stamp(shelf[|shelf| - 1].second) in Files(stamp, shelf);
    }
  }

  lemma AscendingLater(shelf: seq<Roll>, second: int, later: int)
    requires Ascending(shelf, second) && second <= later
    ensures Ascending(shelf, later)
  {
  }

  lemma {:induction false} FileNamesOf(stamp: int -> string, shelf: seq<Roll>, name: string)
    ensures name in FileNames(stamp, shelf) <==> name in Files(stamp, shelf)
  {
    if shelf != [] {
      FileNamesOf(stamp, shelf[..|shelf| - 1], name);
    }
  }

  lemma {:induction false} FileNamesSorted(stamp: int -> string, shelf: seq<Roll>, second: int)
    requires Monotone(stamp) && Ascending(shelf, second)
    ensures Sorted(StringLess, FileNames(stamp, shelf))
    ensures forall i :: 0 <= i < |FileNames(stamp, shelf)| ==> StringLess(FileNames(stamp, shelf)[i], stamp(second + 1))
  {
    if shelf != [] {
      var n := |shelf| - 1;
      var last := shelf[n].second;
      FileNamesSorted(stamp, shelf[..n], last - 1);
      var names := FileNames(stamp, shelf[..n]);
      assert StringLess(stamp(last), stamp(second + 1));
      forall i | 0 <= i < |names| ensures StringLess(names[i], stamp(second + 1)) {
        StringLessTransitive(names[i], stamp(last), stamp(second + 1));
      }
    }
  }

  /** The text of each roll, in order, is what its file holds. */
  lemma {:induction false} FilesHold(stamp: int -> string, shelf: seq<Roll>, second: int, i: nat)
    requires Monotone(stamp) && Ascending(shelf, second) && i < |shelf|
    ensures |FileNames(stamp, shelf)| == |shelf|
    ensures FileNames(stamp, shelf)[i] in Files(stamp, shelf)
    ensures Files(stamp, shelf)[FileNames(stamp, shelf)[i]] == shelf[i].text
  {
    var n := |shelf| - 1;
    var names := FileNames(stamp, shelf[..n]);
    NamesLength(stamp, shelf[..n]);
    if i < n {
      FilesHold(stamp, shelf[..n], shelf[n].second - 1, i);
      FileNamesSorted(stamp, shelf[..n], shelf[n].second - 1);
      StringLessTotal(names[i], stamp(shelf[n].second));
      assert StringLess(names[i], stamp(shelf[n].second - 1 + 1));
    }
  }

  lemma {:induction false} NamesLength(stamp: int -> string, shelf: seq<Roll>)
    ensures |FileNames(stamp, shelf)| == |shelf|
  {
    if shelf != [] {
      NamesLength(stamp, shelf[..|shelf| - 1]);
    }
  }

  class HistoryDir {
    const codec: Codec
    const stamp: int -> string
    var live: Option<string>
    var rolls: map<string, string>
    ghost var shelf: seq<Roll>
    ghost var clock: int

    ghost predicate Valid()
      reads this
    {
      Faithful(codec) && Monotone(stamp) && Ascending(shelf, Second(clock)) && rolls == Files(stamp, shelf)
    }

    function LiveText(): string
      reads this
    {
      if live.Some? then live.value else ""
    }

    /** What `read_all` reports: the rolls by name, then the live file. */
    ghost function Contents(): seq<Record>
      reads this
      requires Valid()
    {
      RollRecords(codec, shelf) + ReadText(codec, LiveText())
    }

    constructor (codec: Codec, stamp: int -> string)
      requires Faithful(codec) && Monotone(stamp)
      ensures Valid() && Contents() == [] && live == None && rolls == map[] && clock == 0
      ensures this.codec == codec && this.stamp == stamp
    {
      this.codec, this.stamp := codec, stamp;
      live, rolls, shelf, clock := None, map[], [], 0;
    }

    /** `append`: a missing live file is created; a line of its own unless a torn tail is in the way. */
    method Append(r: Record)
      requires Valid() && codec.writes(r)
      modifies this`live
      ensures Valid() && live == Some(old(LiveText()) + codec.render(r) + "\n") && Clean(LiveText())
      ensures old(Clean(LiveText())) ==> Contents() == old(Contents()) + [r]
    {
      var text := LiveText();
      live := Some(text + codec.render(r) + "\n");
      if Clean(text) {
        ReadAppended(codec, text, r);
        assert Contents() == RollRecords(codec, shelf) + (ReadText(codec, text) + [r]);
      }
    }

    /** `maybe_rotate`; `crashed` is a kill between the rename and the `touch`. Nothing that was readable is lost. */
    method MaybeRotate(maxBytes: Option<int>, maxAgeDays: Option<int>, now: int, mtime: int, crashed: bool)
      returns (target: Option<string>)
      requires Valid() && clock <= now
      modifies this`live, this`rolls, this`shelf, this`clock
      ensures Valid() && clock == now && Contents() == old(Contents())
      ensures target.Some? <==> old(live.Some? && OverThreshold(codec, live.value, maxBytes, maxAgeDays, now, mtime))
                                && stamp(Second(now)) !in old(rolls)
      ensures target.None? ==> live == old(live) && rolls == old(rolls) && shelf == old(shelf)
      ensures old(Clean(LiveText())) ==> Clean(LiveText())
      ensures target.Some? ==>
        && target.value == stamp(Second(now)) && rolls == old(rolls)[target.value := old(live.value)]
        && live == if crashed then None else Some("")
    {
      AdvanceClock(now);
      if maxBytes.None? && maxAgeDays.None? {
        return None;
      }
      if live.None? || !OverThreshold(codec, live.value, maxBytes, maxAgeDays, now, mtime) {
        return None;
      }
      var name := stamp(Second(now));
      if name in rolls {
        return None;
      }
      RollLive(name, crashed);
      target := Some(name);
    }

    /** `os.replace(path, target)` then `path.touch()`. */
    method RollLive(name: string, crashed: bool)
      requires Valid() && live.Some? && name == stamp(Second(clock)) && name !in rolls
      modifies this`live, this`rolls, this`shelf
      ensures Valid() && Contents() == old(Contents())
      ensures rolls == old(rolls)[name := old(live.value)] && live == if crashed then None else Some("")
    {
      ShelfGrows(codec, stamp, shelf, Second(clock), live.value);
      rolls := rolls[name := live.value];
      shelf := shelf + [Roll(Second(clock), live.value)];
      live := None;
      if !crashed {
        live := Some("");
      }
    }

    ghost method AdvanceClock(now: int)
      requires Valid() && clock <= now
      modifies this`clock
      ensures Valid() && clock == now
    {
      AscendingLater(shelf, Second(clock), Second(now));
      clock := now;
    }

    /** An append cut off after `k` characters; of the whole line at most. */
    method AppendCut(r: Record, k: nat)
      requires Valid() && codec.writes(r) && k <= |codec.render(r)| + 1
      modifies this`live
      ensures Valid() && live == Some(old(LiveText()) + (codec.render(r) + "\n")[..k])
    {
      live := Some(LiveText() + (codec.render(r) + "\n")[..k]);
    }

    /** The live file is complete lines and a tail of pieces, and what reads back is `kept`. */
    ghost predicate Holds(kept: Kept, clean: string, pieces: seq<string>)
      reads this
    {
      && Valid() && LiveText() == clean + Joined(pieces) && Clean(clean) && TailOf(codec, kept.tail, pieces)
      && RollRecords(codec, shelf) + ReadText(codec, clean) == kept.records
    }

    /** A whole line goes to the live file. */
    method Complete(r: Record, ghost kept: Kept, ghost clean: string, ghost pieces: seq<string>)
      requires OneObjectPerLine(codec) && Holds(kept, clean, pieces) && codec.writes(r)
      modifies this`live
      ensures Holds(Kept(if kept.tail.Ended? then kept.records + [r] else kept.records, Ended),
                    clean + Joined(pieces) + codec.render(r) + "\n", [])
    {
      Append(r);
      EndLine(codec, clean, kept.tail, pieces, r);
      NothingBehind(LiveText());
      AppendIf(RollRecords(codec, shelf), ReadText(codec, clean), kept.tail.Ended?, r);
    }

    /** Part of a line goes there. */
    method Tear(r: Record, k: nat, ghost kept: Kept, ghost clean: string, ghost pieces: seq<string>)
      returns (ghost more: seq<string>)
      requires Holds(kept, clean, pieces) && codec.writes(r) && 0 < k <= |codec.render(r)|
      modifies this`live
      ensures Holds(Kept(kept.records, if kept.tail.Ended? && k == |codec.render(r)| then Unended(r) else Garbled), clean, more)
    {
      AppendCut(r, k);
      more := Grow(codec, kept.tail, pieces, r, k);
      FurtherBehind(clean, Joined(pieces), (codec.render(r) + "\n")[..k]);
    }

    /** A rotation, which may not take place. */
    method Turn(op: Op, ghost kept: Kept, ghost clean: string, ghost pieces: seq<string>) returns (rolled: bool)
      requires OneObjectPerLine(codec) && Holds(kept, clean, pieces) && op.Rotate? && clock <= op.now
      modifies this`live, this`rolls, this`shelf, this`clock
      ensures if rolled then Holds(Kept(kept.records + TailRecords(kept.tail), Ended), "", []) else Holds(kept, clean, pieces)
      ensures clock == op.now
    {
      HoldsReads(kept, clean, pieces);
      var target := MaybeRotate(op.maxBytes, op.maxAgeDays, op.now, op.mtime, op.crashed);
      rolled := target.Some?;
      if rolled {
        assert Contents() == RollRecords(codec, shelf) + ReadText(codec, "");
      }
    }

    /** One operation; `rolled` if it was a rotation that took place. */
    method Perform(op: Op, ghost kept: Kept, ghost clean: string, ghost pieces: seq<string>)
      returns (rolled: bool, ghost clean': string, ghost pieces': seq<string>)
      requires OneObjectPerLine(codec) && Holds(kept, clean, pieces) && Proper(codec, op) && (op.Rotate? ==> clock <= op.now)
      modifies this`live, this`rolls, this`shelf, this`clock
      ensures Holds(KeptAfter(codec, kept, op, rolled), clean', pieces') && clock == if op.Rotate? then op.now else old(clock)
    {
      rolled, clean', pieces' := false, clean, pieces;
      match op
      case Write(r) =>
        Complete(r, kept, clean, pieces);
        clean', pieces' := clean + Joined(pieces) + codec.render(r) + "\n", [];
      case TornWrite(r, k) =>
        if k > |codec.render(r)| {
          Complete(r, kept, clean, pieces);
          clean', pieces' := clean + Joined(pieces) + codec.render(r) + "\n", [];
        } else if k > 0 {
          pieces' := Tear(r, k, kept, clean, pieces);
        } else {
          AppendCut(r, 0);
        }
      case Rotate(_, _, _, _, _) =>
        rolled := Turn(op, kept, clean, pieces);
        if rolled {
          clean', pieces' := "", [];
        }
    }

    lemma HoldsNothing()
      requires Valid() && live == None && Contents() == []
      ensures Holds(Kept([], Ended), "", [])
    {
      NothingBehind("");
    }

    lemma HoldsReads(kept: Kept, clean: string, pieces: seq<string>)
      requires OneObjectPerLine(codec) && Holds(kept, clean, pieces)
      ensures Contents() == kept.records + TailRecords(kept.tail)
    {
      ReadTail(codec, clean, kept.tail, pieces);
    }

    method PerformAll(ops: seq<Op>) returns (rolled: seq<bool>)
      requires OneObjectPerLine(codec) && Valid() && Sound(codec, ops) && live == None && Contents() == [] && clock == 0
      modifies this`live, this`rolls, this`shelf, this`clock
      ensures Valid() && |rolled| == |ops| && Contents() == Readable(codec, ops, rolled)
    {
      rolled := [];
      ghost var kept, clean, pieces := Kept([], Ended), "", [];
      HoldsNothing();
      for i := 0 to |ops|
        invariant |rolled| == i && clock == LastNow(ops[..i])
        invariant Holds(kept, clean, pieces) && kept == KeptAfterAll(codec, ops[..i], rolled)
      {
        SoundAt(codec, ops, i);
        var did;
        did, clean, pieces := Perform(ops[i], kept, clean, pieces);
        OneMore(codec, ops, i, rolled, did);
        kept := KeptAfter(codec, kept, ops[i], did);
        rolled := rolled + [did];
      }
      assert ops[..|ops|] == ops;
      HoldsReads(kept, clean, pieces);
    }

    /** `rolled_history_paths`: the names in sorted order are the rolls in the order they were made. */
    method RolledNames() returns (names: seq<string>)
      requires Valid()
      ensures names == FileNames(stamp, shelf)
    {
      names := [];
      var todo := rolls.Keys;
      while todo != {}
        invariant todo <= rolls.Keys && Distinct(names)
        invariant forall name :: name in names <==> name in rolls && name !in todo
      {
        var name :| name in todo;
        todo := todo - {name};
        names := names + [name];
      }
      StringsTotal(Elements(names));
      SortSorted(StringLess, names);
      names := Sort(StringLess, names);
      FileNamesSorted(stamp, shelf, Second(clock));
      forall name ensures name in names <==> name in FileNames(stamp, shelf) {
        FileNamesOf(stamp, shelf, name);
      }
      assert Elements(names) == Elements(FileNames(stamp, shelf));
      SortedUnique(StringLess, names, FileNames(stamp, shelf));
    }

    /** `read_all`: `sorted(rolls) + [live]`. */
    method ReadAll() returns (records: seq<Record>)
      requires Valid()
      ensures records == Contents()
    {
      var names := RolledNames();
      records := [];
      NamesLength(stamp, shelf);
      for i := 0 to |names|
        invariant records == RollRecords(codec, shelf[..i])
      {
        FilesHold(stamp, shelf, Second(clock), i);
        assert shelf[..i + 1][..i] == shelf[..i];
        records := records + ReadText(codec, rolls[names[i]]);
      }
      assert shelf[..|shelf|] == shelf;
      if live.Some? {
        records := records + ReadText(codec, live.value);
      }
    }
  }

  /** `_over_rotation_threshold`: size, or the age of the oldest record (mtime when nothing parses). */
  function OverThreshold(c: Codec, text: string, maxBytes: Option<int>, maxAgeDays: Option<int>, now: int, mtime: int): bool {
    if maxBytes.Some? && |text| > maxBytes.value then true
    else if maxAgeDays.None? then false
    else
      var records := ReadText(c, text);
      now - (if records != [] then records[0].ts else mtime) > maxAgeDays.value * 86_400 * MICROS
  }

  /** Over the size, or the oldest record that reads back (else the file itself) older than the days allowed. */
  lemma ThresholdMeans(c: Codec, text: string, maxBytes: Option<int>, maxAgeDays: Option<int>, now: int, mtime: int)
    ensures OverThreshold(c, text, maxBytes, maxAgeDays, now, mtime) <==>
              || (maxBytes.Some? && |text| > maxBytes.value)
              || (maxAgeDays.Some? && ReadText(c, text) != [] && now - ReadText(c, text)[0].ts > maxAgeDays.value * 24 * 3600 * 1_000_000)
              || (maxAgeDays.Some? && ReadText(c, text) == [] && now - mtime > maxAgeDays.value * 24 * 3600 * 1_000_000)
  {
  }

  // -- any interleaving -----------------------------------------------------------------

  datatype Op =
    | Write(r: Record)
    | TornWrite(r: Record, k: nat)    // an append that wrote only the first `k` characters of its line
    | Rotate(maxBytes: Option<int>, maxAgeDays: Option<int>, now: int, mtime: int, crashed: bool)

  /** How the live file ends: with a newline or empty; with a record that only lacks its newline; or with text that is
      no record. */
  datatype Tail = Ended | Unended(r: Record) | Garbled

  /** The records that are there to stay, and the tail. */
  datatype Kept = Kept(records: seq<Record>, tail: Tail)

  function TailRecords(tail: Tail): seq<Record> {
    if tail.Unended? then [tail.r] else []
  }

  /** A complete line behind an unended tail is lost with it; a cut-off one leaves such a tail; a rotation ends it. */
  function KeptAfter(c: Codec, kept: Kept, op: Op, rolled: bool): Kept {
    match op
    case Write(r) => Kept(if kept.tail.Ended? then kept.records + [r] else kept.records, Ended)
    case TornWrite(r, k) =>
      if k == 0 then kept
      else if k > |c.render(r)| then Kept(if kept.tail.Ended? then kept.records + [r] else kept.records, Ended)
      else Kept(kept.records, if kept.tail.Ended? && k == |c.render(r)| then Unended(r) else Garbled)
    case Rotate(_, _, _, _, _) => if rolled then Kept(kept.records + TailRecords(kept.tail), Ended) else kept
  }

  function KeptAfterAll(c: Codec, ops: seq<Op>, rolled: seq<bool>): Kept
    requires |rolled| == |ops|
  {
    if ops == [] then Kept([], Ended)
    else
      var n := |ops| - 1;
      KeptAfter(c, KeptAfterAll(c, ops[..n], rolled[..n]), ops[n], rolled[n])
  }

  /** What `read_all` should return: what is kept, and a last record that only lacks its newline. */
  function Readable(c: Codec, ops: seq<Op>, rolled: seq<bool>): seq<Record>
    requires |rolled| == |ops|
  {
    var kept := KeptAfterAll(c, ops, rolled);
    kept.records + TailRecords(kept.tail)
  }

  function Written(ops: seq<Op>): seq<Record> {
    if ops == [] then []
    else Written(ops[..|ops| - 1]) + (if ops[|ops| - 1].Write? then [ops[|ops| - 1].r] else [])
  }

  /** When nothing is cut off, nothing is lost. */
  lemma {:induction false} NothingTornNothingLost(c: Codec, ops: seq<Op>, rolled: seq<bool>)
    requires |rolled| == |ops| && forall i :: 0 <= i < |ops| ==> !ops[i].TornWrite?
    ensures KeptAfterAll(c, ops, rolled) == Kept(Written(ops), Ended) && Readable(c, ops, rolled) == Written(ops)
  {
    if ops != [] {
      NothingTornNothingLost(c, ops[..|ops| - 1], rolled[..|ops| - 1]);
    }
  }

  /** The clock the last rotation saw; 0 before any. */
  function LastNow(ops: seq<Op>): int {
    if ops == [] then 0
    else if ops[|ops| - 1].Rotate? then ops[|ops| - 1].now
    else LastNow(ops[..|ops| - 1])
  }

  predicate Proper(c: Codec, op: Op) {
    match op
    case Write(r) => c.writes(r)
    case TornWrite(r, k) => c.writes(r) && k <= |c.render(r)| + 1
    case Rotate(_, _, _, _, _) => true
  }

  /** Rotations see a non-decreasing clock. */
  predicate Sound(c: Codec, ops: seq<Op>) {
    ops != [] ==>
      var op := ops[|ops| - 1];
      && Sound(c, ops[..|ops| - 1]) && Proper(c, op)
      && (op.Rotate? ==> LastNow(ops[..|ops| - 1]) <= op.now)
  }

  lemma {:induction false} SoundAt(c: Codec, ops: seq<Op>, i: nat)
    requires Sound(c, ops) && i < |ops|
    ensures Proper(c, ops[i]) && (ops[i].Rotate? ==> LastNow(ops[..i]) <= ops[i].now)
  {
    var n := |ops| - 1;
    if i < n {
      assert ops[..n][..i] == ops[..i];
      SoundAt(c, ops[..n], i);
    }
  }

  lemma OneMore(c: Codec, ops: seq<Op>, i: nat, rolled: seq<bool>, did: bool)
    requires i < |ops| && |rolled| == i
    ensures KeptAfterAll(c, ops[..i + 1], rolled + [did]) == KeptAfter(c, KeptAfterAll(c, ops[..i], rolled), ops[i], did)
    ensures LastNow(ops[..i + 1]) == if ops[i].Rotate? then ops[i].now else LastNow(ops[..i])
  {
    assert ops[..i + 1][..i] == ops[..i] && (rolled + [did])[..i] == rolled;
  }

  /** The pieces behind the last newline make up the tail. */
  ghost predicate TailOf(c: Codec, tail: Tail, pieces: seq<string>) {
    match tail
    case Ended => pieces == []
    case Unended(r) => c.writes(r) && pieces == [c.render(r)]
    case Garbled => Debris(c, pieces)
  }

  lemma JoinedOne(piece: string)
    ensures Joined([piece]) == piece
  {
    assert [piece][..0] == [];
  }

  lemma JoinedMore(pieces: seq<string>, piece: string)
    ensures Joined(pieces + [piece]) == Joined(pieces) + piece
  {
    assert (pieces + [piece])[..|pieces|] == pieces;
  }

  lemma NothingBehind(text: string)
    ensures text + Joined([]) == text
  {
  }

  lemma FurtherBehind(a: string, b: string, c: string)
    ensures a + b + c == a + (b + c)
  {
  }

  lemma AppendIf(front: seq<Record>, back: seq<Record>, keeps: bool, r: Record)
    ensures front + (back + if keeps then [r] else []) == if keeps then front + back + [r] else front + back
  {
    assert back + [] == back;
  }

  lemma PiecesOf(c: Codec, tail: Tail, pieces: seq<string>)
    requires Faithful(c) && TailOf(c, tail, pieces)
    ensures Pieces(c, pieces)
  {
    if tail.Unended? {
      assert c.render(tail.r)[..|c.render(tail.r)|] == pieces[0];
    }
  }

  lemma {:induction false} PiecesHaveNoNewline(c: Codec, pieces: seq<string>)
    requires Faithful(c) && Pieces(c, pieces)
    ensures '\n' !in Joined(pieces)
  {
    if pieces != [] {
      PiecesHaveNoNewline(c, pieces[..|pieces| - 1]);
      assert Begins(c, pieces[|pieces| - 1]);
    }
  }

  /** What a file with a tail reads as. */
  lemma ReadTail(c: Codec, clean: string, tail: Tail, pieces: seq<string>)
    requires Faithful(c) && OneObjectPerLine(c) && Clean(clean) && TailOf(c, tail, pieces)
    ensures ReadText(c, clean + Joined(pieces)) == ReadText(c, clean) + TailRecords(tail)
  {
    PiecesOf(c, tail, pieces);
    PiecesHaveNoNewline(c, pieces);
    ReadConcat(c, clean, Joined(pieces));
    ReadLine(c, Joined(pieces));
    if tail.Unended? {
      JoinedOne(pieces[0]);
    }
  }

  lemma MoreDebris(c: Codec, tail: Tail, pieces: seq<string>, piece: string)
    requires Faithful(c) && TailOf(c, tail, pieces) && !tail.Ended? && Begins(c, piece)
    ensures Debris(c, pieces + [piece])
  {
    PiecesOf(c, tail, pieces);
  }

  /** What a whole line behind the tail reads as. */
  lemma LineBehind(c: Codec, tail: Tail, pieces: seq<string>, r: Record)
    requires Faithful(c) && OneObjectPerLine(c) && TailOf(c, tail, pieces) && c.writes(r)
    ensures OfLine(c, Joined(pieces) + c.render(r)) == if tail.Ended? then [r] else []
  {
    if tail.Ended? {
      assert "" + c.render(r) == c.render(r);
    } else {
      assert c.render(r)[..|c.render(r)|] == c.render(r);
      MoreDebris(c, tail, pieces, c.render(r));
      JoinedMore(pieces, c.render(r));
    }
  }

  lemma EndLine(c: Codec, clean: string, tail: Tail, pieces: seq<string>, r: Record)
    requires Faithful(c) && OneObjectPerLine(c) && Clean(clean) && TailOf(c, tail, pieces) && c.writes(r)
    ensures ReadText(c, clean + Joined(pieces) + c.render(r) + "\n") == ReadText(c, clean) + if tail.Ended? then [r] else []
  {
    PiecesOf(c, tail, pieces);
    PiecesHaveNoNewline(c, pieces);
    LineBehind(c, tail, pieces, r);
    MergedLine(c, clean, Joined(pieces), r);
  }

  /** One more piece in the tail. */
  lemma Grow(c: Codec, tail: Tail, pieces: seq<string>, r: Record, k: nat) returns (more: seq<string>)
    requires Faithful(c) && TailOf(c, tail, pieces) && c.writes(r) && 0 < k <= |c.render(r)|
    ensures TailOf(c, if tail.Ended? && k == |c.render(r)| then Unended(r) else Garbled, more)
    ensures Joined(more) == Joined(pieces) + (c.render(r) + "\n")[..k]
  {
    var piece := c.render(r)[..k];
    PiecesOf(c, tail, pieces);
    JoinedMore(pieces, piece);
    more := pieces + [piece];
    assert (c.render(r) + "\n")[..k] == piece && Begins(c, piece);
    if tail.Ended? && k < |c.render(r)| {
      assert CutShort(c, piece);
    }
  }

  /** Any interleaving of appends, appends cut off anywhere, rotations, and crashes between rename and touch reads back
      as what was appended, without the records cut off and those an unended tail swallowed. */
  method Replay(codec: Codec, stamp: int -> string, ops: seq<Op>) returns (records: seq<Record>, rolled: seq<bool>)
    requires Faithful(codec) && OneObjectPerLine(codec) && Monotone(stamp) && Sound(codec, ops)
    ensures |rolled| == |ops| && records == Readable(codec, ops, rolled)
    ensures (forall i :: 0 <= i < |ops| ==> !ops[i].TornWrite?) ==> records == Written(ops)
  {
    var dir := new HistoryDir(codec, stamp);
    rolled := dir.PerformAll(ops);
    records := dir.ReadAll();
    if forall i :: 0 <= i < |ops| ==> !ops[i].TornWrite? {
      NothingTornNothingLost(codec, ops, rolled);
    }
  }

  // -- folds over one job's records -------------------------------------------------------

  function OfJob(log: seq<Record>, job: string): seq<Record> {
    if log == [] then []
    else OfJob(log[..|log| - 1], job) + (if log[|log| - 1].job == job then [log[|log| - 1]] else [])
  }

  /** `_is_off_schedule`. */
  predicate OffSchedule(r: Record) {
    var trigger := Field(r.extra, "trigger");
    trigger != JNull && trigger != JStr("cron")
  }

  /** The latest `running` record of a run. */
  function LatestRunningOf(rs: seq<Record>, id: string): Option<Record> {
    if rs == [] then None
    else
      var r := rs[|rs| - 1];
      if r.state == Running && r.runId == Some(id) && id != "" then Some(r) else LatestRunningOf(rs[..|rs| - 1], id)
  }

  /** `r`, read after `before`, is a terminal record of a run the cron started. */
  predicate Counts(before: seq<Record>, r: Record) {
    && Terminal(r.state) && !OffSchedule(r)
    && (r.runId.Some? ==>
          var running := LatestRunningOf(before, r.runId.value);
          running.Some? ==> !OffSchedule(running.value))
  }

  /** The last record that counts. */
  function LastCounting(rs: seq<Record>): Option<Record> {
    if rs == [] then None
    else if Counts(rs[..|rs| - 1], rs[|rs| - 1]) then Some(rs[|rs| - 1])
    else LastCounting(rs[..|rs| - 1])
  }

  /** `rs[k]` is the latest `running` record of the run. */
  ghost predicate LatestAt(rs: seq<Record>, k: nat, id: string) {
    && k < |rs| && rs[k].state == Running && rs[k].runId == Some(id) && id != ""
    && forall j :: k < j < |rs| ==> rs[j].state != Running || rs[j].runId != Some(id)
  }

  lemma {:induction false} LatestRunningMeans(rs: seq<Record>, id: string)
    ensures LatestRunningOf(rs, id).None? ==> forall k: nat :: !LatestAt(rs, k, id)
    ensures LatestRunningOf(rs, id).Some? ==> forall k: nat :: LatestAt(rs, k, id) ==> LatestRunningOf(rs, id).value == rs[k]
    ensures LatestRunningOf(rs, id).Some? ==> exists k: nat :: LatestAt(rs, k, id)
  {
    if rs != [] {
      var n := |rs| - 1;
      LatestRunningMeans(rs[..n], id);
      forall k: nat | LatestAt(rs, k, id) && k < n ensures LatestAt(rs[..n], k, id) {
      }
      if rs[n].state == Running && rs[n].runId == Some(id) && id != "" {
        assert LatestAt(rs, n, id);
      } else if k: nat :| LatestAt(rs[..n], k, id) {
        assert LatestAt(rs, k, id);
      }
    }
  }

  /** A run's own record, or the `running` record it follows, tells whether the cron started it. */
  ghost predicate StartedElsewhere(rs: seq<Record>, r: Record) {
    || Field(r.extra, "trigger") !in {JNull, JStr("cron")}
    || (r.runId.Some? && exists k: nat :: LatestAt(rs, k, r.runId.value) && Field(rs[k].extra, "trigger") !in {JNull, JStr("cron")})
  }

  /** The end of a run moves the schedule, if the cron started it; nothing else does. */
  lemma OnlyCronRunsMoveTheSchedule(rs: seq<Record>, r: Record)
    ensures LastCounting(rs + [r]) ==
            if r.state in {Done, Failed, Skipped, Missed, InterruptedUnknown} && !StartedElsewhere(rs, r) then Some(r)
            else LastCounting(rs)
  {
    assert (rs + [r])[..|rs|] == rs;
    if r.runId.Some? {
      LatestRunningMeans(rs, r.runId.value);
    }
  }

  /** `last_scheduled_terminal_run`: one pass, carrying the off-schedule run ids. */
  method LastScheduledTerminalRun(rs: seq<Record>) returns (scheduled: Option<Record>)
    ensures scheduled == LastCounting(rs)
  {
    var offScheduleRunIds: set<string> := {};
    scheduled := None;
    for i := 0 to |rs|
      invariant scheduled == LastCounting(rs[..i])
      invariant forall id :: id in offScheduleRunIds <==>
        LatestRunningOf(rs[..i], id).Some? && OffSchedule(LatestRunningOf(rs[..i], id).value)
    {
      var record := rs[i];
      assert rs[..i + 1][..i] == rs[..i];
      if record.state == Running && record.runId.Some? && record.runId.value != "" {
        if OffSchedule(record) {
          offScheduleRunIds := offScheduleRunIds + {record.runId.value};
        } else {
          offScheduleRunIds := offScheduleRunIds - {record.runId.value};
        }
      } else if Terminal(record.state) {
        var off := OffSchedule(record) || (record.runId.Some? && record.runId.value in offScheduleRunIds);
        if !off {
          scheduled := Some(record);
        }
      }
    }
    assert rs[..|rs|] == rs;
  }

  function Without(rs: seq<Record>, id: string): seq<Record> {
    if rs == [] then []
    else
      Without(rs[..|rs| - 1], id) + (if rs[|rs| - 1].runId == Some(id) then [] else [rs[|rs| - 1]])
  }

  /** `r`, read after `before`, does not let run `id` count: it is off-schedule by its own trigger, or a terminal
      after an off-schedule `running`, or of a state that does not matter. */
  predicate KeepsOff(before: seq<Record>, r: Record, id: string) {
    r.runId == Some(id) ==>
      && (r.state == Running ==> OffSchedule(r))
      && (Terminal(r.state) ==> OffSchedule(r) || LatestRunningOf(before, id).Some?)
  }

  predicate WhollyOffSchedule(rs: seq<Record>, id: string) {
    rs != [] ==> KeepsOff(rs[..|rs| - 1], rs[|rs| - 1], id) && WhollyOffSchedule(rs[..|rs| - 1], id)
  }

  lemma {:induction false} RunningOfOthers(rs: seq<Record>, id: string, other: string)
    requires id != other
    ensures LatestRunningOf(Without(rs, id), other) == LatestRunningOf(rs, other)
  {
    if rs != [] {
      RunningOfOthers(rs[..|rs| - 1], id, other);
      var w := Without(rs, id);
      if rs[|rs| - 1].runId != Some(id) {
        assert w[..|w| - 1] == Without(rs[..|rs| - 1], id);
      } else {
        assert w == Without(rs[..|rs| - 1], id);
      }
    }
  }

  lemma {:induction false} OffScheduleRunningOf(rs: seq<Record>, id: string)
    requires WhollyOffSchedule(rs, id) && LatestRunningOf(rs, id).Some?
    ensures OffSchedule(LatestRunningOf(rs, id).value)
  {
    var n := |rs| - 1;
    if !(rs[n].state == Running && rs[n].runId == Some(id) && id != "") {
      OffScheduleRunningOf(rs[..n], id);
    }
  }

  /** An off-schedule run, however its records interleave with other runs of the job, is invisible to the schedule. */
  lemma {:induction false} OffScheduleRunsAreInvisible(rs: seq<Record>, id: string)
    requires WhollyOffSchedule(rs, id)
    ensures LastCounting(rs) == LastCounting(Without(rs, id))
  {
    if rs != [] {
      var n := |rs| - 1;
      OffScheduleRunsAreInvisible(rs[..n], id);
      if rs[n].runId == Some(id) {
        assert Without(rs, id) == Without(rs[..n], id);
        if LatestRunningOf(rs[..n], id).Some? {
          OffScheduleRunningOf(rs[..n], id);
        }
      } else {
        var w := Without(rs, id);
        assert w[..|w| - 1] == Without(rs[..n], id) && w[|w| - 1] == rs[n];
        if rs[n].runId.Some? { RunningOfOthers(rs[..n], id, rs[n].runId.value); }
      }
    }
  }

  /** `first_seen_at`. */
  function FirstSeenAt(rs: seq<Record>): Option<int> {
    if rs == [] then None else Some(rs[0].ts)
  }

  function LatestRunning(rs: seq<Record>): Option<Record> {
    if rs == [] then None
    else if rs[|rs| - 1].state == Running then Some(rs[|rs| - 1])
    else LatestRunning(rs[..|rs| - 1])
  }

  /** The job's latest `running` record, unless some terminal record carries its run id. */
  function OpenRun(rs: seq<Record>): Option<Record> {
    var latest := LatestRunning(rs);
    if latest.Some? && (exists i :: 0 <= i < |rs| && Closes(rs[i], latest.value)) then None else latest
  }

  predicate Closes(r: Record, running: Record) {
    Terminal(r.state) && r.runId.Some? && r.runId.value != "" && r.runId == running.runId
  }

  const STALE_MARGIN := 5 * 60 * MICROS

  function StaleAfter(running: Record, timeoutMs: int): int {
    running.ts + timeoutMs * 1000 + STALE_MARGIN
  }

  /** `rs[k]` is the latest `running` record, and no record ends its run. */
  ghost predicate OpenAt(rs: seq<Record>, k: nat) {
    && k < |rs| && rs[k].state == Running && (forall j :: k < j < |rs| ==> rs[j].state != Running)
    && forall i :: 0 <= i < |rs| && rs[i].state in {Done, Failed, Skipped, Missed, InterruptedUnknown} ==>
         rs[i].runId != rs[k].runId || rs[i].runId == None || rs[i].runId == Some("")
  }

  lemma {:induction false} LatestRunningAt(rs: seq<Record>)
    ensures LatestRunning(rs).None? ==> forall i :: 0 <= i < |rs| ==> rs[i].state != Running
    ensures LatestRunning(rs).Some? ==>
              exists k :: 0 <= k < |rs| && rs[k] == LatestRunning(rs).value && rs[k].state == Running
                          && forall j :: k < j < |rs| ==> rs[j].state != Running
  {
    if rs != [] {
      LatestRunningAt(rs[..|rs| - 1]);
    }
  }

  lemma OpenRunMeans(rs: seq<Record>)
    ensures OpenRun(rs).None? <==> forall k: nat :: !OpenAt(rs, k)
    ensures forall k: nat :: OpenAt(rs, k) ==> OpenRun(rs) == Some(rs[k])
  {
    LatestRunningAt(rs);
    forall k: nat | OpenAt(rs, k) ensures OpenRun(rs) == Some(rs[k]) {
    }
    if OpenRun(rs).Some? {
      var k :| 0 <= k < |rs| && rs[k] == LatestRunning(rs).value && rs[k].state == Running && forall j :: k < j < |rs| ==> rs[j].state != Running;
      forall i | 0 <= i < |rs| && rs[i].state in {Done, Failed, Skipped, Missed, InterruptedUnknown}
        ensures rs[i].runId != rs[k].runId || rs[i].runId == None || rs[i].runId == Some("")
      {
        assert !Closes(rs[i], rs[k]);
      }
      assert OpenAt(rs, k);
    }
  }

  /** In flight: a run is open and no more than its timeout and five minutes have passed. */
  lemma InFlightMeans(rs: seq<Record>, timeoutMs: int, now: int)
    ensures InFlight(rs, timeoutMs, now) <==>
            exists k: nat :: OpenAt(rs, k) && now <= rs[k].ts + timeoutMs * 1000 + 5 * 60 * 1_000_000
  {
    OpenRunMeans(rs);
    if OpenRun(rs).Some? {
      var k: nat :| OpenAt(rs, k);
    }
  }

  /** The scan `find_stale_running` and `is_currently_running` share. */
  method ScanRuns(rs: seq<Record>) returns (latest: Option<Record>, finished: set<string>)
    ensures latest == LatestRunning(rs)
    ensures forall running: Record :: (running.runId.Some? && running.runId.value in finished) <==>
                              exists i :: 0 <= i < |rs| && Closes(rs[i], running)
  {
    latest, finished := None, {};
    for i := 0 to |rs|
      invariant latest == LatestRunning(rs[..i])
      invariant forall id :: id in finished <==>
        exists k :: 0 <= k < i && Terminal(rs[k].state) && rs[k].runId == Some(id) && id != ""
    {
      assert rs[..i + 1][..i] == rs[..i];
      if rs[i].state == Running {
        latest := Some(rs[i]);
      }
      if Terminal(rs[i].state) && rs[i].runId.Some? && rs[i].runId.value != "" {
        finished := finished + {rs[i].runId.value};
      }
    }
    assert rs[..|rs|] == rs;
  }

  method FindStaleRunning(rs: seq<Record>, timeoutMs: int, now: int) returns (stale: Option<Record>)
    ensures stale == if OpenRun(rs).Some? && now > StaleAfter(OpenRun(rs).value, timeoutMs) then OpenRun(rs) else None
    ensures stale.Some? <==> exists k: nat :: OpenAt(rs, k) && now > rs[k].ts + timeoutMs * 1000 + 5 * 60 * 1_000_000
    ensures stale.Some? ==> exists k: nat :: OpenAt(rs, k) && stale.value == rs[k]
  {
    OpenRunMeans(rs);
    var latest, finished := ScanRuns(rs);
    if latest.None? {
      return None;
    }
    if latest.value.runId.Some? && latest.value.runId.value in finished {
      return None;
    }
    if now <= latest.value.ts + timeoutMs * 1000 + STALE_MARGIN {
      return None;
    }
    stale := latest;
  }

  /** Complement of `FindStaleRunning` on an open run: an open run is live or stale, never both. */
  method IsCurrentlyRunning(rs: seq<Record>, timeoutMs: int, now: int) returns (b: bool)
    ensures b <==> InFlight(rs, timeoutMs, now)
    ensures b <==> exists k: nat :: OpenAt(rs, k) && now <= rs[k].ts + timeoutMs * 1000 + 5 * 60 * 1_000_000
  {
    InFlightMeans(rs, timeoutMs, now);
    var latest, finished := ScanRuns(rs);
    if latest.None? || (latest.value.runId.Some? && latest.value.runId.value in finished) {
      return false;
    }
    b := now <= latest.value.ts + timeoutMs * 1000 + STALE_MARGIN;
  }

  ghost predicate InFlight(rs: seq<Record>, timeoutMs: int, now: int) {
    OpenRun(rs).Some? && now <= StaleAfter(OpenRun(rs).value, timeoutMs)
  }
}
