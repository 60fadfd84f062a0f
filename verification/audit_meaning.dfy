/** What the audit journal's answers are in terms of its lines and bytes: which events a
    listing shows, which lines a clearing leaves, which files retention removes, and what
    an append writes. */
module AuditMeaning {
  import opened Wrappers
  import opened Sequences
  import opened Ordering
  import opened Audit

  // ---- listings and clearings, line by line ----

  /** Every field that the filter names agrees. */
  predicate Fits(line: Line, f: AuditFilter) {
    && line.Record?
    && (f.relayID != "" ==> line.event.relayID == f.relayID)
    && (f.clientID != "" ==> line.event.clientID == f.clientID)
    && (f.kind != "" ==> line.event.kind == f.kind)
  }

  /** The events found are those of the fitting lines, each once and in order. */
  lemma {:induction false} HitsExactly(lines: seq<Line>, f: AuditFilter) returns (at: seq<nat>)
    ensures Ascending(at, |lines|) && |at| == |Hits(lines, f)|
    ensures forall k | 0 <= k < |at| :: lines[at[k]] == Record(Hits(lines, f)[k])
    ensures forall i | 0 <= i < |lines| :: i in at <==> Fits(lines[i], f)
  {
    at := [];
    if lines != [] {
      var n := |lines| - 1;
      var front := lines[..n];
      at := HitsExactly(front, f);
      ghost var before := at;
      OneMorePlace(before, n);
      HitIsFit(lines[n], f);
      assert Hits(lines, f) == Hits(front, f) + if Fits(lines[n], f) then [lines[n].event] else [];
      hide Found, Hit, Fits;
      forall i | 0 <= i < n ensures i in before <==> Fits(lines[i], f) { assert front[i] == lines[i]; }
      if Fits(lines[n], f) {
        at := at + [n];
        assert forall k | 0 <= k < |before| :: lines[before[k]] == front[before[k]];
      } else {
        assert forall k | 0 <= k < |before| :: lines[before[k]] == front[before[k]];
      }
    }
  }

  lemma HitIsFit(line: Line, f: AuditFilter)
    ensures Hit(line, f, None) <==> Fits(line, f)
  {
  }

  /** A clearing with a filter leaves the lines that do not fit, those that do not decode
      among them, each once and in order; one without leaves nothing. */
  lemma {:induction false} RemainingExactly(lines: seq<Line>, f: AuditFilter) returns (at: seq<nat>)
    ensures f.relayID == "" && f.clientID == "" && f.kind == "" ==> Remaining(lines, f) == []
    ensures f.relayID != "" || f.clientID != "" || f.kind != "" ==>
              && Ascending(at, |lines|) && |at| == |Remaining(lines, f)|
              && (forall k | 0 <= k < |at| :: lines[at[k]] == Remaining(lines, f)[k])
              && (forall i | 0 <= i < |lines| :: i in at <==> !Fits(lines[i], f))
  {
    at := [];
    if lines != [] && !Unfiltered(f) {
      var n := |lines| - 1;
      var front := lines[..n];
      at := RemainingExactly(front, f);
      ghost var before := at;
      OneMorePlace(before, n);
      HitIsFit(lines[n], f);
      assert Remaining(lines, f) == Remaining(front, f) + if Fits(lines[n], f) then [] else [lines[n]];
      hide Remaining, Hit, Fits;
      forall i | 0 <= i < n ensures i in before <==> !Fits(lines[i], f) { assert front[i] == lines[i]; }
      assert forall k | 0 <= k < |before| :: lines[before[k]] == front[before[k]];
      if !Fits(lines[n], f) { at := at + [n]; }
    }
  }

  /** A listing shows the last of them, newest first: as many as the filter asks for, and
      200 if it asks for none or more than 1000. */
  lemma ListingExactly(dir: Dir, f: AuditFilter)
    ensures var hits, listed := Hits(Whole(dir), f), Newest(Hits(Whole(dir), f), Limit(f));
            var most := if 1 <= f.limit <= 1000 then f.limit else 200;
            && |listed| == (if |hits| < most then |hits| else most)
            && (forall i | 0 <= i < |listed| :: listed[i] == hits[|hits| - 1 - i] && Fits(Record(listed[i]), f))
  {
    var hits := Hits(Whole(dir), f);
    NewestAt(hits, Limit(f));
    var at := HitsExactly(Whole(dir), f);
    hide Newest, Hits, Whole, Fits;
    forall k | 0 <= k < |hits| ensures Fits(Record(hits[k]), f) {
      assert at[k] in at;
      assert Whole(dir)[at[k]] == Record(hits[k]);
    }
  }

  // ---- where listings and clearings fail ----

  /** The file cannot be opened or has a line that is too long. */
  predicate Obstructs(dir: Dir, name: string, broken: set<string>) {
    name in broken || (name in dir && TooLong in dir[name].lines)
  }

  lemma BlockedMeans(dir: Dir, name: string, broken: set<string>)
    ensures Blocked(dir, name, broken) <==> Obstructs(dir, name, broken)
  {
  }

  /** A listing fails exactly at such a file, unless the newer files show as many events as
      are asked for. */
  lemma {:induction false} ListFailsExactly(dir: Dir, f: AuditFilter, broken: set<string>)
    ensures var names := Listing(AuditFiles(dir));
            var most := if 1 <= f.limit <= 1000 then f.limit else 200;
            ListFails(dir, f, broken) <==>
              exists i :: 0 <= i < |names| && Obstructs(dir, names[i], broken) && |Hits(Journal(dir, names[i + 1..]), f)| < most
  {
    var names := Listing(AuditFiles(dir));
    hide Hits, Journal, AuditFiles, Sorted, Distinct, LE, Blocked, Obstructs, Elements;
    if ListFails(dir, f, broken) {
      var i :| 0 <= i < |names| && Blocked(dir, names[i], broken) && |Hits(Journal(dir, names[i + 1..]), f)| < Limit(f);
      BlockedMeans(dir, names[i], broken);
      assert Obstructs(dir, names[i], broken);
    }
    if i :| 0 <= i < |names| && Obstructs(dir, names[i], broken) && |Hits(Journal(dir, names[i + 1..]), f)| < Limit(f) {
      BlockedMeans(dir, names[i], broken);
      assert Blocked(dir, names[i], broken);
    }
  }

  /** A clearing goes from the newest file to the first one that cannot be opened or, with a
      filter, read. */
  lemma ClearStopsExactly(dir: Dir, f: AuditFilter, broken: set<string>, names: seq<string>)
    ensures var n := Untouched(dir, f, broken, names);
            var filtered := f.relayID != "" || f.clientID != "" || f.kind != "";
            && n <= |names|
            && (forall i | n <= i < |names| :: names[i] !in broken && (filtered && names[i] in dir ==> TooLong !in dir[names[i]].lines))
            && (n > 0 ==> names[n - 1] in broken || (filtered && names[n - 1] in dir && TooLong in dir[names[n - 1]].lines))
  {
    hide Untouched;
  }

  /** Of the files cleared exactly those stay that have lines left, with those lines; the
      others stay as they are. */
  lemma FilesAfterClear(dir: Dir, f: AuditFilter, done: set<string>, name: string)
    ensures var dir' := After(dir, f, done);
            && (name in dir' ==> name in dir)
            && (name in dir && name !in done ==> name in dir' && dir'[name] == dir[name])
            && (name in dir && name in done && Remaining(dir[name].lines, f) == [] ==> name !in dir')
            && (name in dir && name in done && Remaining(dir[name].lines, f) != [] ==>
                  name in dir' && dir'[name] == File(Remaining(dir[name].lines, f), false))
  {
    hide Remaining;
  }

  // ---- which files there are ----

  lemma AuditNameMeans(name: string)
    ensures AuditName(name) <==> exists date :: name == "srt-audit-" + date + ".jsonl"
  {
    if AuditName(name) {
      var n := |name|;
      assert name[n - 6] == ".jsonl"[0] == '.';
      assert forall i | 0 <= i < 10 :: name[i] == "srt-audit-"[i] != '.';
      assert name == name[..10] + name[10..n - 6] + name[n - 6..];
      assert name == "srt-audit-" + name[10..n - 6] + ".jsonl";
    }
    if exists date :: name == "srt-audit-" + date + ".jsonl" {
      var date :| name == "srt-audit-" + date + ".jsonl";
      assert name[|name| - 6..] == ".jsonl";
      assert name[..10] == "srt-audit-";
    }
  }

  /** What a caller gets back from an append that ends well, and what is then stored: the
      level defaults to "info", the day to today and the ID to a fresh one; of the other files
      exactly the audit files go whose date is more than the retention period ago. */
  lemma AppendExactly(format: Format, dir: Dir, event: AuditEvent, undated: bool, today: int, id: string, retentionDays: int, name: string)
    requires retentionDays >= 1
    ensures var e := Completed(event, undated, today, id);
            var (dir', result) := Appended(format, dir, e, retentionDays, Well);
            && result == Ok(event.(day := e.day, id := e.id, level := e.level))
            && e.day == (if undated then today else event.day)
            && (if event.id == "" then e.id == id else e.id == event.id)
            && (if event.level == "" then e.level == "info" else e.level == event.level)
            && (name in dir && name != format.name(e.day) ==>
                  var expired := AuditName(name) && format.day(name).Some? && e.day - format.day(name).value > retentionDays;
                  && (name in dir' <==> !expired) && (!expired ==> dir'[name] == dir[name]))
            && (name !in dir && name != format.name(e.day) ==> name !in dir')
  {
    hide AuditName, Put;
  }

  // ---- the bytes of a file ----

  const EOL: string := ['\n']

  function LineText(format: Format, line: Line): string {
    match line
    case Record(event) => format.encode(event)
    case Junk(text) => text
    case TooLong => ""
  }

  function Ended(format: Format, lines: seq<Line>): string {
    if lines == [] then "" else Ended(format, lines[..|lines| - 1]) + LineText(format, lines[|lines| - 1]) + EOL
  }

  /** A line's text and its end, which a torn last line lacks. */
  function Content(format: Format, file: File): string {
    if file.torn && file.lines != [] then
      Ended(format, file.lines[..|file.lines| - 1]) + LineText(format, file.lines[|file.lines| - 1])
    else Ended(format, file.lines)
  }

  lemma EndedLast(format: Format, lines: seq<Line>, line: Line)
    ensures Ended(format, lines + [line]) == Ended(format, lines) + LineText(format, line) + EOL
  {
    assert (lines + [line])[..|lines|] == lines;
  }

  lemma ContentLast(format: Format, lines: seq<Line>, line: Line, torn: bool)
    ensures Content(format, File(lines + [line], torn)) == Ended(format, lines) + LineText(format, line) + if torn then "" else EOL
  {
    assert (lines + [line])[..|lines|] == lines;
    EndedLast(format, lines, line);
    hide Ended, LineText;
  }

  lemma WrittenPart(text: string, written: nat)
    requires written <= |text| + 1
    ensures (text + EOL)[..written] == (if written < |text| then text[..written] else text) + if written > |text| then EOL else ""
  {
  }

  /** However much of a record reaches the file, its bytes are added to the file's, whether
      or not the last line had its end. */
  lemma {:induction false} PutAddsBytes(format: Format, file: File, event: AuditEvent, written: nat)
    requires written <= |format.encode(event)| + 1
    requires file.torn && file.lines != [] ==> !file.lines[|file.lines| - 1].TooLong?
    ensures Content(format, Put(format, file, event, written)) == Content(format, file) + (format.encode(event) + EOL)[..written]
  {
    var text := format.encode(event);
    WrittenPart(text, written);
    var whole := written > |text|;
    var part := if written < |text| then text[..written] else text;
    var file' := Put(format, file, event, written);
    if written > 0 && file.torn && file.lines != [] {
      var n := |file.lines| - 1;
      var front, last := file.lines[..n], file.lines[n];
      assert file.lines == front + [last];
      var joined := Junk(TextOf(format, last) + part);
      assert file' == File(front + [joined], !whole);
      hide Put, Content, Ended;
      ContentLast(format, front, last, true);
      ContentLast(format, front, joined, !whole);
      Joined(Ended(format, front), LineText(format, last), part, if whole then EOL else "");
    } else if written > 0 {
      var line := if written < |text| then Junk(part) else Record(event);
      assert file' == File(file.lines + [line], !whole);
      assert Content(format, file) == Ended(format, file.lines);
      hide Put, Content, Ended;
      ContentLast(format, file.lines, line, !whole);
      Assoc(Ended(format, file.lines), part, if whole then EOL else "");
    }
  }

  lemma Joined(a: string, b: string, c: string, d: string)
    ensures a + (b + c) + d == a + b + (c + d)
  {
  }

  /** Bytes that end a line make it decode to the event exactly if the file had its end. */
  lemma PutDecodes(format: Format, file: File, event: AuditEvent)
    ensures var file' := Put(format, file, event, |format.encode(event)| + 1);
            && !file'.torn && file'.lines != []
            && (file'.lines[|file'.lines| - 1] == Record(event) <==> !(file.torn && file.lines != []))
            && (!(file.torn && file.lines != []) ==> file'.lines == file.lines + [Record(event)])
  {
  }
}
