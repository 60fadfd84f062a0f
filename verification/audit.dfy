/** The audit journal: a directory of daily files, listed newest first and cleared by
    rewriting. */
module Audit {
  import opened Wrappers
  import opened Sequences
  import opened Ordering

  /** `detail` stands for the fields that no filter looks at. */
  datatype AuditEvent = AuditEvent(
    id: string, day: int, level: string, kind: string, relayID: string, clientID: string, detail: string)

  datatype AuditFilter = AuditFilter(relayID: string, clientID: string, kind: string, limit: int)

  /** A line decodes to an event, or does not, or is beyond the scanner's buffer. */
  datatype Line = Record(event: AuditEvent) | Junk(text: string) | TooLong

  /** `torn` if the last line lacks its end. */
  datatype File = File(lines: seq<Line>, torn: bool)

  type Dir = map<string, File>

  /** auditMatches. */
  predicate Matches(e: AuditEvent, f: AuditFilter) {
    && (f.relayID == "" || e.relayID == f.relayID)
    && (f.clientID == "" || e.clientID == f.clientID)
    && (f.kind == "" || e.kind == f.kind)
  }

  predicate Unfiltered(f: AuditFilter) {
    f.relayID == "" && f.clientID == "" && f.kind == ""
  }

  function Limit(f: AuditFilter): nat {
    if f.limit < 1 || f.limit > 1000 then 200 else f.limit
  }

  predicate AuditName(name: string) {
    "srt-audit-" <= name && |name| >= 6 && name[|name| - 6..] == ".jsonl"
  }

  function AuditFiles(dir: Dir): set<string> {
    set name | name in dir && AuditName(name)
  }

  predicate Readable(lines: seq<Line>) {
    forall i | 0 <= i < |lines| :: !lines[i].TooLong?
  }

  // ---- what a listing means ----

  function LinesOf(dir: Dir, name: string): seq<Line> {
    if name in dir then dir[name].lines else []
  }

  /** The files with these names, one after the other. */
  function Journal(dir: Dir, names: seq<string>): seq<Line> {
    if names == [] then [] else LinesOf(dir, names[0]) + Journal(dir, names[1..])
  }

  /** All audit files, oldest to newest. */
  ghost function Whole(dir: Dir): seq<Line> {
    Journal(dir, Listing(AuditFiles(dir)))
  }

  predicate Hit(line: Line, want: AuditFilter, but: Option<AuditFilter>) {
    line.Record? && Matches(line.event, want) && (but.Some? ==> !Matches(line.event, but.value))
  }

  /** The events that match one filter but not another, in order. */
  function Found(lines: seq<Line>, want: AuditFilter, but: Option<AuditFilter>): seq<AuditEvent> {
    if lines == [] then []
    else
      var n := |lines| - 1;
      Found(lines[..n], want, but) + if Hit(lines[n], want, but) then [lines[n].event] else []
  }

  function Hits(lines: seq<Line>, f: AuditFilter): seq<AuditEvent> {
    Found(lines, f, None)
  }

  /** The last n elements, last one first. */
  function Newest<T>(s: seq<T>, n: nat): seq<T> {
    if s == [] || n == 0 then [] else [s[|s| - 1]] + Newest(s[..|s| - 1], n - 1)
  }

  lemma {:induction false} NewestAt<T>(s: seq<T>, n: nat)
    ensures |Newest(s, n)| == if n < |s| then n else |s|
    ensures forall i | 0 <= i < |Newest(s, n)| :: Newest(s, n)[i] == s[|s| - 1 - i]
  {
    if s != [] && n != 0 { NewestAt(s[..|s| - 1], n - 1); }
  }

  lemma NewestOfBoth<T>(a: seq<T>, b: seq<T>, n: nat)
    ensures |Newest(b, n)| <= n
    ensures Newest(a + b, n) == Newest(b, n) + Newest(a, n - |Newest(b, n)|)
  {
    NewestAt(a + b, n);
    NewestAt(b, n);
    NewestAt(a, n - |Newest(b, n)|);
  }

  lemma {:induction false} FoundAppend(a: seq<Line>, b: seq<Line>, want: AuditFilter, but: Option<AuditFilter>)
    ensures Found(a + b, want, but) == Found(a, want, but) + Found(b, want, but)
    decreases |b|
  {
    if b == [] {
      assert a + b == a;
    } else {
      var n := |b| - 1;
      assert (a + b)[..|a + b| - 1] == a + b[..n];
      FoundAppend(a, b[..n], want, but);
    }
  }

  lemma {:induction false} JournalAppend(dir: Dir, a: seq<string>, b: seq<string>)
    ensures Journal(dir, a + b) == Journal(dir, a) + Journal(dir, b)
    decreases |a|
  {
    if a == [] {
      assert a + b == b;
    } else {
      assert (a + b)[1..] == a[1..] + b;
      JournalAppend(dir, a[1..], b);
    }
  }

  /** Only the newer files can fill a listing early. */
  lemma MoreHits(dir: Dir, names: seq<string>, i: nat, j: nat, f: AuditFilter)
    requires i <= j <= |names|
    ensures |Hits(Journal(dir, names[j..]), f)| <= |Hits(Journal(dir, names[i..]), f)|
  {
    assert names[i..] == names[i..j] + names[j..];
    JournalAppend(dir, names[i..j], names[j..]);
    FoundAppend(Journal(dir, names[i..j]), Journal(dir, names[j..]), f, None);
  }

  /** A listing fails exactly if a file that cannot be read comes up before newer files
      have filled it. */
  ghost predicate ListFails(dir: Dir, f: AuditFilter, broken: set<string>) {
    var names := Listing(AuditFiles(dir));
    exists i :: 0 <= i < |names| && Blocked(dir, names[i], broken)
                && |Hits(Journal(dir, names[i + 1..]), f)| < Limit(f)
  }

  predicate Blocked(dir: Dir, name: string, broken: set<string>) {
    name in broken || !Readable(LinesOf(dir, name))
  }

  // ---- what a clearing means ----

  /** The lines a clearing writes back. */
  function Remaining(lines: seq<Line>, f: AuditFilter): seq<Line> {
    if lines == [] || Unfiltered(f) then []
    else
      var n := |lines| - 1;
      Remaining(lines[..n], f) + if Hit(lines[n], f, None) then [] else [lines[n]]
  }

  /** The directory once the files in `done` are cleared; a file left empty is removed. */
  function After(dir: Dir, f: AuditFilter, done: set<string>): Dir {
    map name | name in dir && !(name in done && Remaining(dir[name].lines, f) == []) ::
      if name in done then File(Remaining(dir[name].lines, f), false) else dir[name]
  }

  predicate Stuck(dir: Dir, f: AuditFilter, broken: set<string>, name: string) {
    name in broken || (!Unfiltered(f) && !Readable(LinesOf(dir, name)))
  }

  /** Clearing goes from the newest file down and stops at the first failure: the number
      of files, oldest first, that it does not get to. */
  function Untouched(dir: Dir, f: AuditFilter, broken: set<string>, names: seq<string>): (n: nat)
    ensures n <= |names|
    ensures forall i | n <= i < |names| :: !Stuck(dir, f, broken, names[i])
    ensures n > 0 ==> Stuck(dir, f, broken, names[n - 1])
  {
    if names == [] || Stuck(dir, f, broken, names[|names| - 1]) then |names|
    else Untouched(dir, f, broken, names[..|names| - 1])
  }

  lemma {:induction false} RemainingHits(lines: seq<Line>, f: AuditFilter, g: AuditFilter)
    ensures Found(Remaining(lines, f), g, None) == Found(lines, g, Some(f))
  {
    if lines != [] {
      var n := |lines| - 1;
      RemainingHits(lines[..n], f, g);
      if !Unfiltered(f) {
        var kept := if Hit(lines[n], f, None) then [] else [lines[n]];
        FoundAppend(Remaining(lines[..n], f), kept, g, None);
        assert Remaining(lines[..n], f) + [] == Remaining(lines[..n], f);
      }
    }
  }

  lemma {:induction false} FoundSplits(lines: seq<Line>, f: AuditFilter, g: AuditFilter)
    requires Unfiltered(g)
    ensures |Found(lines, g, Some(f))| + |Found(lines, f, None)| == |Found(lines, g, None)|
  {
    if lines != [] { FoundSplits(lines[..|lines| - 1], f, g); }
  }

  /** Files that are not there do not show in the journal. */
  lemma {:induction false} JournalSkips(dir: Dir, names: seq<string>, present: seq<string>)
    requires Sorted(names) && Distinct(names) && Sorted(present) && Distinct(present)
    requires forall x | x in present :: x in names
    requires forall x | x in names && x !in present :: LinesOf(dir, x) == []
    ensures Journal(dir, names) == Journal(dir, present)
    decreases |names|
  {
    hide LE, LinesOf;
    if names != [] {
      TailElements(names);
      MemberOfTail(names);
      if present != [] { TailElements(present); MemberOfTail(present); }
      if names[0] in present {
        SameHead(names, present);
        JournalSkips(dir, names[1..], present[1..]);
      } else {
        JournalSkips(dir, names[1..], present);
      }
    }
  }

  lemma MemberOfTail(s: seq<string>)
    requires s != [] && Distinct(s)
    ensures forall x :: x in s[1..] <==> x in s && x != s[0]
  {
    TailElements(s);
    assert forall x :: (x in Elements(s[1..]) <==> x in s[1..]) && (x in Elements(s) <==> x in s);
  }

  lemma SameHead(a: seq<string>, b: seq<string>)
    requires a != [] && Sorted(a) && Sorted(b) && a[0] in b
    requires forall x | x in b :: x in a
    ensures a[0] == b[0]
  {
    var i :| 0 <= i < |b| && b[i] == a[0];
    assert b[0] in a;
    var j :| 0 <= j < |a| && a[j] == b[0];
    HeadIsLeast(a, j);
    HeadIsLeast(b, i);
    Total(a[0], b[0]);
  }

  lemma {:induction false} WholeIs(dir: Dir, names: seq<string>)
    requires Sorted(names) && Distinct(names) && AuditFiles(dir) <= Elements(names)
    requires forall x | x in names :: AuditName(x)
    ensures Journal(dir, names) == Whole(dir)
  {
    var present := Listing(AuditFiles(dir));
    assert forall x :: x in present <==> x in Elements(present);
    hide LE, AuditName;
    JournalSkips(dir, names, present);
  }

  lemma {:induction false} JournalAgrees(dir: Dir, dir': Dir, names: seq<string>)
    requires forall i | 0 <= i < |names| :: LinesOf(dir, names[i]) == LinesOf(dir', names[i])
    ensures Journal(dir, names) == Journal(dir', names)
  {
    if names != [] {
      assert forall i | 0 <= i < |names| - 1 :: names[1..][i] == names[i + 1];
      JournalAgrees(dir, dir', names[1..]);
    }
  }

  lemma {:induction false} ClearedJournal(dir: Dir, f: AuditFilter, done: set<string>, names: seq<string>, g: AuditFilter)
    requires forall i | 0 <= i < |names| :: names[i] in done
    ensures Found(Journal(After(dir, f, done), names), g, None) == Found(Journal(dir, names), g, Some(f))
  {
    if names != [] {
      assert forall i | 0 <= i < |names| - 1 :: names[1..][i] == names[i + 1];
      ClearedJournal(dir, f, done, names[1..], g);
      var dir' := After(dir, f, done);
      RemainingHits(LinesOf(dir, names[0]), f, g);
      assert LinesOf(dir', names[0]) == Remaining(LinesOf(dir, names[0]), f);
      FoundAppend(LinesOf(dir', names[0]), Journal(dir', names[1..]), g, None);
      FoundAppend(LinesOf(dir, names[0]), Journal(dir, names[1..]), g, Some(f));
    }
  }

  lemma Spared(dir: Dir, f: AuditFilter, names: seq<string>, n: nat)
    requires n <= |names| && Distinct(names)
    ensures forall i | 0 <= i < n :: LinesOf(dir, names[..n][i]) == LinesOf(After(dir, f, Elements(names[n..])), names[..n][i])
  {
    hide Remaining;
    forall i | 0 <= i < n ensures names[i] !in Elements(names[n..]) {}
  }

  lemma AllElements<T>(s: seq<T>)
    ensures forall i | 0 <= i < |s| :: s[i] in Elements(s)
  {
  }

  lemma ClearedWhole(dir: Dir, f: AuditFilter, n: nat)
    requires n <= |Listing(AuditFiles(dir))|
    ensures var names := Listing(AuditFiles(dir)); Journal(After(dir, f, Elements(names[n..])), names) == Whole(After(dir, f, Elements(names[n..])))
  {
    var names := Listing(AuditFiles(dir));
    assert forall x :: x in names <==> x in Elements(names);
    hide LE, AuditName, Remaining, Journal, Whole;
    WholeIs(After(dir, f, Elements(names[n..])), names);
  }

  /** After a clearing that got down to file n, any listing sees the untouched older
      files in full and, of the cleared ones, the events that did not match. */
  lemma ListAfterClear(dir: Dir, f: AuditFilter, n: nat, g: AuditFilter)
    requires n <= |Listing(AuditFiles(dir))|
    ensures var names := Listing(AuditFiles(dir));
            Hits(Whole(After(dir, f, Elements(names[n..]))), g) ==
            Found(Journal(dir, names[..n]), g, None) + Found(Journal(dir, names[n..]), g, Some(f))
  {
    hide Journal, Whole, After, Found, Listing, AuditFiles, Elements, Distinct, Sorted, Remaining, LE;
    var names := Listing(AuditFiles(dir));
    var done := Elements(names[n..]);
    var dir' := After(dir, f, done);
    ClearedWhole(dir, f, n);
    Spared(dir, f, names, n);
    JournalAgrees(dir, dir', names[..n]);
    JournalAppend(dir', names[..n], names[n..]);
    assert names == names[..n] + names[n..];
    AllElements(names[n..]);
    ClearedJournal(dir, f, done, names[n..], g);
    FoundAppend(Journal(dir', names[..n]), Journal(dir', names[n..]), g, None);
  }

  /** A complete filtered clearing removes exactly the matching events: every later
      listing is that of the events that did not match, the returned count is how many
      events went, and none is lost otherwise. */
  lemma ClearRemovesTheMatches(dir: Dir, f: AuditFilter, g: AuditFilter, any: AuditFilter)
    requires Unfiltered(any)
    ensures var dir' := After(dir, f, AuditFiles(dir));
            && Hits(Whole(dir'), g) == Found(Whole(dir), g, Some(f))
            && Hits(Whole(dir'), f) == []
            && |Hits(Whole(dir'), any)| + |Hits(Whole(dir), f)| == |Hits(Whole(dir), any)|
  {
    var names := Listing(AuditFiles(dir));
    assert names[0..] == names && names[..0] == [];
    ListAfterClear(dir, f, 0, g);
    ListAfterClear(dir, f, 0, f);
    ListAfterClear(dir, f, 0, any);
    FoundSplits(Whole(dir), f, any);
    NothingBoth(Whole(dir), f);
  }

  lemma {:induction false} NothingBoth(lines: seq<Line>, f: AuditFilter)
    ensures Found(lines, f, Some(f)) == []
  {
    if lines != [] { NothingBoth(lines[..|lines| - 1], f); }
  }

  // ---- appending ----

  /** Day numbers and their names, as time.Format and time.Parse give them in UTC, and the
      encoding of events. */
  datatype Format = Format(name: int -> string, day: string -> Option<int>, encode: AuditEvent -> string)

  /** The day's name is that of an audit file and reads back as the day, as it does up to
      the year 9999. */
  predicate Named(format: Format, day: int) {
    AuditName(format.name(day)) && format.day(format.name(day)) == Some(day)
  }

  /** pruneLocked: files dated before the retention period go. */
  predicate Expired(format: Format, name: string, today: int, retentionDays: int) {
    AuditName(name) && format.day(name).Some? && format.day(name).value < today - retentionDays
  }

  function Retained(format: Format, dir: Dir, today: int, retentionDays: int): Dir {
    map name | name in dir && !Expired(format, name, today, retentionDays) :: dir[name]
  }

  /** What a caller leaves open is filled in; an undated event gets today's date. */
  function Completed(event: AuditEvent, undated: bool, today: int, id: string): AuditEvent {
    event.(day := if undated then today else event.day, id := if event.id == "" then id else event.id,
           level := if event.level == "" then "info" else event.level)
  }

  function TextOf(format: Format, line: Line): string {
    match line
    case Record(event) => format.encode(event)
    case Junk(text) => text
    case TooLong => ""
  }

  /** The file after `written` bytes of the event's line, its end counted last. Behind a torn
      line they continue that line, which then does not decode. */
  function Put(format: Format, file: File, event: AuditEvent, written: nat): File {
    var text, n := format.encode(event), |file.lines| - 1;
    var whole := written > |text|;
    var part := if written < |text| then text[..written] else text;
    if written == 0 then file
    else if file.torn && file.lines != [] then
      File(file.lines[..n] + [if file.lines[n].TooLong? then TooLong else Junk(TextOf(format, file.lines[n]) + part)], !whole)
    else File(file.lines + [if written < |text| then Junk(part) else Record(event)], !whole)
  }

  /** How an append ends: no ID, no file, a write that stops after some bytes, an error after
      the write, or well. */
  datatype Ending = Unnamed | Unopened | Cut(written: nat) | Unsynced | Well

  function FileAt(dir: Dir, name: string): File {
    if name in dir then dir[name] else File([], false)
  }

  function Appended(format: Format, dir: Dir, event: AuditEvent, retentionDays: int, ending: Ending): (Dir, Result<AuditEvent>) {
    var name, all := format.name(event.day), |format.encode(event)| + 1;
    match ending
    case Unnamed => (dir, Err("id"))
    case Unopened => (dir, Err("open"))
    case Cut(written) => (dir[name := Put(format, FileAt(dir, name), event, if written < all then written else all)], Err("write"))
    case Unsynced => (dir[name := Put(format, FileAt(dir, name), event, all)], Err("sync"))
    case Well => (Retained(format, dir[name := Put(format, FileAt(dir, name), event, all)], event.day, retentionDays), Ok(event))
  }

  /** If no kept file is newer than an event's own day, whose file is not torn, then an append
      that ends well puts it at the very end of the journal, behind what retention leaves: it
      heads every listing that matches it. */
  lemma AppendedIsNewest(format: Format, dir: Dir, event: AuditEvent, retentionDays: int, f: AuditFilter)
    requires Named(format, event.day) && retentionDays >= 1 && !FileAt(dir, format.name(event.day)).torn
    requires forall name | name in AuditFiles(dir) :: LE(name, format.name(event.day))
    ensures var kept, dir' := Retained(format, dir, event.day, retentionDays), Appended(format, dir, event, retentionDays, Well).0;
            && Whole(dir') == Whole(kept) + [Record(event)]
            && (Matches(event, f) ==> Hits(Whole(dir'), f) == Hits(Whole(kept), f) + [event]
                                      && Newest(Hits(Whole(dir'), f), Limit(f))[..1] == [event])
  {
    var kept, dir' := Retained(format, dir, event.day, retentionDays), Appended(format, dir, event, retentionDays, Well).0;
    var name := format.name(event.day);
    hide AuditName, LE, Matches, Unfiltered, Appended, Put, Retained, Whole;
    KeptAndMore(format, dir, event, retentionDays);
    LastFileGrows(kept, name, [Record(event)]);
    FoundAppend(Whole(kept), [Record(event)], f, None);
    if Matches(event, f) {
      assert [Record(event)][..0] == [];
      NewestOfBoth(Hits(Whole(kept), f), [event], Limit(f));
      NewestAt([event], Limit(f));
    }
  }

  lemma KeptAndMore(format: Format, dir: Dir, event: AuditEvent, retentionDays: int)
    requires Named(format, event.day) && retentionDays >= 1 && !FileAt(dir, format.name(event.day)).torn
    ensures var kept, name := Retained(format, dir, event.day, retentionDays), format.name(event.day);
            && Appended(format, dir, event, retentionDays, Well).0 == kept[name := File(LinesOf(kept, name) + [Record(event)], false)]
            && AuditFiles(kept) <= AuditFiles(dir) && AuditName(name)
  {
    hide AuditName;
  }

  /** A torn line costs the next event as well: both end up in one line that does not decode. */
  lemma TornLineSwallows(format: Format, file: File, event: AuditEvent, f: AuditFilter)
    requires file.torn && file.lines != []
    ensures var file' := Put(format, file, event, |format.encode(event)| + 1);
            && !file'.torn && |file'.lines| == |file.lines|
            && Hits(file'.lines, f) == Hits(file.lines[..|file.lines| - 1], f)
  {
    var file' := Put(format, file, event, |format.encode(event)| + 1);
    assert file'.lines[..|file'.lines| - 1] == file.lines[..|file.lines| - 1];
    hide Matches;
  }

  lemma LastFileGrows(dir: Dir, name: string, lines: seq<Line>)
    requires AuditName(name) && forall x | x in AuditFiles(dir) :: LE(x, name)
    ensures Whole(dir[name := File(LinesOf(dir, name) + lines, false)]) == Whole(dir) + lines
  {
    hide AuditName, LE, Journal, Whole;
    var dir' := dir[name := File(LinesOf(dir, name) + lines, false)];
    assert AuditFiles(dir') == AuditFiles(dir) + {name};
    var names := Listing(AuditFiles(dir'));
    assert forall x :: x in names <==> x in Elements(names);
    WholeIs(dir, names);
    WholeIs(dir', names);
    GreatestIsLast(names, name);
    hide AuditFiles, Sorted;
    var front := names[..|names| - 1];
    assert names == front + [name];
    forall i | 0 <= i < |front| ensures LinesOf(dir, front[i]) == LinesOf(dir', front[i]) {
      assert front[i] == names[i] != name;
    }
    hide Distinct, Elements;
    LastFile(dir, dir', front, name, lines);
  }

  lemma {:induction false} LastFile(dir: Dir, dir': Dir, front: seq<string>, name: string, lines: seq<Line>)
    requires forall i | 0 <= i < |front| :: LinesOf(dir, front[i]) == LinesOf(dir', front[i])
    requires LinesOf(dir', name) == LinesOf(dir, name) + lines
    ensures Journal(dir', front + [name]) == Journal(dir, front + [name]) + lines
  {
    JournalAgrees(dir, dir', front);
    JournalAppend(dir, front, [name]);
    JournalAppend(dir', front, [name]);
    OneFile(dir, name);
    OneFile(dir', name);
    Assoc(Journal(dir, front), LinesOf(dir, name), lines);
  }

  lemma OneFile(dir: Dir, name: string)
    ensures Journal(dir, [name]) == LinesOf(dir, name)
  {
    assert [name][1..] == [];
  }

  lemma GreatestIsLast(names: seq<string>, name: string)
    requires Sorted(names) && Distinct(names) && name in names
    requires forall x | x in names :: x == name || LE(x, name)
    ensures names[|names| - 1] == name
  {
    var i :| 0 <= i < |names| && names[i] == name;
    if i < |names| - 1 {
      Total(names[i], names[i + 1]);
    }
  }

  // ---- the code ----

  lemma OneMoreLine(lines: seq<Line>, i: nat, f: AuditFilter)
    requires i < |lines|
    ensures Readable(lines[..i + 1]) <==> Readable(lines[..i]) && !lines[i].TooLong?
    ensures Hits(lines[..i + 1], f) == Hits(lines[..i], f) + if lines[i].Record? && Matches(lines[i].event, f) then [lines[i].event] else []
    ensures !Unfiltered(f) ==>
              Remaining(lines[..i + 1], f) == Remaining(lines[..i], f) + if Hit(lines[i], f, None) then [] else [lines[i]]
  {
    hide Matches, Unfiltered;
    assert lines[..i + 1][..i] == lines[..i];
  }

  lemma AllLines(lines: seq<Line>, i: nat)
    requires i <= |lines|
    ensures Readable(lines) ==> Readable(lines[..i])
    ensures lines[..0] == [] && lines[..|lines|] == lines
  {
  }

  /** Which match slot p of the ring holds. */
  function SeenAt(p: nat, start: nat, seen: nat, count: nat): (k: nat)
    requires p < count <= seen && start <= count
    ensures k < seen
  {
    if p >= start then seen - count + (p - start) else seen - start + p
  }

  /** readAuditFile: one pass, keeping the newest matches in a ring. */
  method ReadAuditFile(lines: seq<Line>, filter: AuditFilter, limit: nat) returns (r: Result<seq<AuditEvent>>)
    requires limit >= 1
    ensures r.Ok? <==> Readable(lines)
    ensures r.Ok? ==> r.value == Newest(Hits(lines, filter), limit)
  {
    hide Readable, Hits, Matches, Newest;
    var ring := new AuditEvent[limit];
    var count, start := 0, 0;
    ghost var seen: seq<AuditEvent> := [];
    AllLines(lines, 0);
    assert Readable([]) && Hits([], filter) == [] by { Nothing(filter); }
    for i := 0 to |lines|
      invariant Readable(lines[..i]) && seen == Hits(lines[..i], filter)
      invariant 0 <= start < limit && count == (if |seen| < limit then |seen| else limit)
      invariant count < limit ==> start == 0
      invariant forall p | 0 <= p < count :: ring[p] == seen[SeenAt(p, start, |seen|, count)]
    {
      OneMoreLine(lines, i, filter);
      AllLines(lines, i + 1);
      if lines[i].TooLong? {
        return Err("token too long");
      }
      if !lines[i].Record? || !Matches(lines[i].event, filter) {
        continue;
      }
      seen := seen + [lines[i].event];
      if count < limit {
        ring[count] := lines[i].event;
        count := count + 1;
        continue;
      }
      ring[start] := lines[i].event;
      Wrapped(start + 1, limit);
      start := (start + 1) % limit;
    }
    AllLines(lines, |lines|);
    var result := ReadOut(ring, start, count, seen);
    return Ok(result);
  }

  /** The second loop of readAuditFile: the ring, last match first. */
  method ReadOut(ring: array<AuditEvent>, start: nat, count: nat, ghost seen: seq<AuditEvent>) returns (result: seq<AuditEvent>)
    requires start < ring.Length && count == (if |seen| < ring.Length then |seen| else ring.Length)
    requires count < ring.Length ==> start == 0
    requires forall p | 0 <= p < count :: ring[p] == seen[SeenAt(p, start, |seen|, count)]
    ensures result == Newest(seen, ring.Length)
  {
    NewestAt(seen, ring.Length);
    hide Newest;
    result := [];
    for index := 0 to count
      invariant |result| == index
      invariant forall k | 0 <= k < index :: result[k] == seen[|seen| - 1 - k]
    {
      var position := (start + count - 1 - index) % count;
      Wrapped(start + count - 1 - index, count);
      result := result + [ring[position]];
    }
  }

  lemma Wrapped(n: nat, count: nat)
    requires 0 < count && n < 2 * count
    ensures n % count == if n < count then n else n - count
  {
  }

  lemma Nothing(f: AuditFilter)
    ensures Readable([]) && Hits([], f) == [] && Remaining([], f) == []
  {
  }

  /** clearAuditFile up to the rename: the lines for the new file, and the count. */
  method ClearAuditFile(lines: seq<Line>, filter: AuditFilter) returns (r: Result<seq<Line>>, cleared: nat)
    requires !Unfiltered(filter)
    ensures r.Ok? <==> Readable(lines)
    ensures r.Ok? ==> r.value == Remaining(lines, filter) && cleared == |Hits(lines, filter)|
  {
    hide Readable, Hits, Matches, Remaining;
    var tmp: seq<Line> := [];
    cleared := 0;
    AllLines(lines, 0);
    Nothing(filter);
    for i := 0 to |lines|
      invariant Readable(lines[..i])
      invariant tmp == Remaining(lines[..i], filter) && cleared == |Hits(lines[..i], filter)|
    {
      OneMoreLine(lines, i, filter);
      AllLines(lines, i + 1);
      if lines[i].TooLong? {
        return Err("token too long"), cleared;
      }
      if lines[i].Record? && Matches(lines[i].event, filter) {
        cleared := cleared + 1;
        continue;
      }
      tmp := tmp + [lines[i]];
    }
    AllLines(lines, |lines|);
    return Ok(tmp), cleared;
  }

  class AuditStore {
    var dir: Dir
    const retentionDays: int
    const format: Format

    constructor (retentionDays: int, format: Format)
      requires retentionDays >= 1
      ensures dir == map[] && this.retentionDays == retentionDays && this.format == format
    {
      dir := map[];
      this.retentionDays := retentionDays;
      this.format := format;
    }

    /** `freshID` is what the random generator gives, if anything. */
    method Append(event: AuditEvent, undated: bool, today: int, freshID: Option<string>, ending: Ending) returns (r: Result<AuditEvent>)
      requires ending.Unnamed? <==> event.id == "" && freshID == None
      modifies this
      ensures var completed := Completed(event, undated, today, if freshID.Some? then freshID.value else "");
              (dir, r) == Appended(format, old(dir), completed, retentionDays, ending)
    {
      hide Put;
      var e := event;
      if undated {
        e := e.(day := today);
      }
      if e.id == "" {
        if freshID.None? {
          return Err("id");
        }
        e := e.(id := freshID.value);
      }
      if e.level == "" {
        e := e.(level := "info");
      }
      var name, all := format.name(e.day), |format.encode(e)| + 1;
      if ending.Unopened? {
        return Err("open");
      }
      var file := if name in dir then dir[name] else File([], false);
      if ending.Cut? {
        dir := dir[name := Put(format, file, e, if ending.written < all then ending.written else all)];
        return Err("write");
      }
      dir := dir[name := Put(format, file, e, all)];
      if ending.Unsynced? {
        return Err("sync");
      }
      Retain(e.day);
      return Ok(e);
    }

    /** pruneLocked. */
    method Retain(today: int)
      modifies this
      ensures dir == Retained(format, old(dir), today, retentionDays)
    {
      var todo := dir.Keys;
      ghost var before := dir;
      while todo != {}
        invariant todo <= before.Keys
        invariant dir == map n | n in before && (n in todo || !Expired(format, n, today, retentionDays)) :: before[n]
        decreases |todo|
      {
        var n :| n in todo;
        todo := todo - {n};
        if Expired(format, n, today, retentionDays) {
          dir := dir - {n};
        }
      }
    }

    /** Files in `broken` fail to open. */
    method List(filter: AuditFilter, broken: set<string>) returns (r: Result<seq<AuditEvent>>)
      ensures r.Err? <==> ListFails(dir, filter, broken)
      ensures r.Ok? ==> r.value == Newest(Hits(Whole(dir), filter), Limit(filter))
    {
      hide ListFails, Journal, Hits, Newest, LE, Readable, AuditFiles, Sorted, Distinct, Elements;
      var limit := if filter.limit < 1 || filter.limit > 1000 then 200 else filter.limit;
      var names := SortedKeys(AuditFiles(dir));
      var result: seq<AuditEvent> := [];
      NothingListed(dir, filter, names);
      for n := |names| downto 0
        invariant result == Newest(Hits(Journal(dir, names[n..]), filter), limit) && |result| < limit
        invariant forall i | n <= i < |names| :: !Blocked(dir, names[i], broken)
      {
        OneMoreFile(dir, names, n, filter, limit);
        if names[n] in broken {
          FailsHere(dir, names, n, filter, broken);
          return Err("open");
        }
        var events := ReadAuditFile(dir[names[n]].lines, filter, limit - |result|);
        if events.Err? {
          FailsHere(dir, names, n, filter, broken);
          return Err(events.reason);
        }
        result := result + events.value;
        if |result| == limit {
          FilledEarly(dir, names, n, filter, broken);
          return Ok(result);
        }
      }
      NoneFails(dir, names, filter, broken);
      return Ok(result);
    }

    method Clear(filter: AuditFilter, broken: set<string>) returns (count: nat, ok: bool)
      modifies this
      ensures var names := Listing(AuditFiles(old(dir)));
              var n := Untouched(old(dir), filter, broken, names);
              && ok == (n == 0)
              && dir == After(old(dir), filter, Elements(names[n..]))
              && count == if Unfiltered(filter) then (if ok then |names| else 0)
                          else |Hits(Journal(old(dir), names[n..]), filter)|
    {
      hide Journal, Hits, Remaining, After, LE, Readable, AuditFiles, Sorted, Distinct, Elements, Unfiltered;
      var names := SortedKeys(AuditFiles(dir));
      ghost var before := dir;
      NothingDone(before, filter, names);
      var cleared := 0;
      for n := |names| downto 0
        invariant dir == After(before, filter, Elements(names[n..]))
        invariant !Unfiltered(filter) ==> cleared == |Hits(Journal(before, names[n..]), filter)|
        invariant Untouched(before, filter, broken, names) == Untouched(before, filter, broken, names[..n])
      {
        var name := names[n];
        OneFileDone(before, filter, names, n);
        assert names[..n + 1][..n] == names[..n];
        if name in broken {
          return if Unfiltered(filter) then 0 else cleared, false;
        }
        if Unfiltered(filter) {
          EmptyRemaining(dir[name].lines, filter);
          dir := dir - {name};
          continue;
        }
        var kept, gone := ClearAuditFile(dir[name].lines, filter);
        if kept.Err? {
          return cleared, false;
        }
        cleared := cleared + gone;
        dir := if kept.value == [] then dir - {name} else dir[name := File(kept.value, false)];
      }
      return if Unfiltered(filter) then |names| else cleared, true;
    }
  }

  // ---- facts for the two loops ----

  lemma NothingListed(dir: Dir, f: AuditFilter, names: seq<string>)
    ensures Newest(Hits(Journal(dir, names[|names|..]), f), Limit(f)) == []
  {
    assert names[|names|..] == [];
  }

  lemma OneMoreFile(dir: Dir, names: seq<string>, n: nat, f: AuditFilter, limit: nat)
    requires names == Listing(AuditFiles(dir)) && n < |names|
    ensures names[n] in dir && LinesOf(dir, names[n]) == dir[names[n]].lines
    ensures Hits(Journal(dir, names[n..]), f) == Hits(dir[names[n]].lines, f) + Hits(Journal(dir, names[n + 1..]), f)
    ensures var newer := Newest(Hits(Journal(dir, names[n + 1..]), f), limit);
            && |newer| <= limit && (|newer| < limit ==> |Hits(Journal(dir, names[n + 1..]), f)| < limit)
            && Newest(Hits(Journal(dir, names[n..]), f), limit) == newer + Newest(Hits(dir[names[n]].lines, f), limit - |newer|)
    ensures |Newest(Hits(Journal(dir, names[n..]), f), limit)| <= limit
  {
    assert names[n] in Elements(names);
    hide Found, LE, Sorted, Distinct, Newest;
    assert names[n..] == [names[n]] + names[n + 1..];
    var newer := Journal(dir, names[n + 1..]);
    FoundAppend(dir[names[n]].lines, newer, f, None);
    NewestOfBoth(Hits(dir[names[n]].lines, f), Hits(newer, f), limit);
    NewestAt(Hits(newer, f), limit);
    NewestAt(Hits(dir[names[n]].lines, f) + Hits(newer, f), limit);
  }

  lemma FailsHere(dir: Dir, names: seq<string>, n: nat, f: AuditFilter, broken: set<string>)
    requires names == Listing(AuditFiles(dir)) && n < |names|
    requires Blocked(dir, names[n], broken) && |Hits(Journal(dir, names[n + 1..]), f)| < Limit(f)
    ensures ListFails(dir, f, broken)
  {
    hide Blocked, Hits, Journal, AuditFiles, Sorted, Distinct;
  }

  lemma NoneFails(dir: Dir, names: seq<string>, f: AuditFilter, broken: set<string>)
    requires names == Listing(AuditFiles(dir))
    requires forall i | 0 <= i < |names| :: !Blocked(dir, names[i], broken)
    ensures !ListFails(dir, f, broken)
    ensures Journal(dir, names[0..]) == Whole(dir)
  {
    hide Blocked, Hits, Journal, AuditFiles, Sorted, Distinct;
    assert names[0..] == names;
  }

  lemma FilledEarly(dir: Dir, names: seq<string>, n: nat, f: AuditFilter, broken: set<string>)
    requires names == Listing(AuditFiles(dir)) && n <= |names|
    requires |Newest(Hits(Journal(dir, names[n..]), f), Limit(f))| == Limit(f)
    requires forall i | n <= i < |names| :: !Blocked(dir, names[i], broken)
    ensures !ListFails(dir, f, broken)
    ensures Newest(Hits(Whole(dir), f), Limit(f)) == Newest(Hits(Journal(dir, names[n..]), f), Limit(f))
  {
    hide Blocked, Found, Journal, AuditFiles, Sorted, Distinct, Newest, Hits;
    NewestAt(Hits(Journal(dir, names[n..]), f), Limit(f));
    if ListFails(dir, f, broken) {
      var i :| 0 <= i < |names| && Blocked(dir, names[i], broken) && |Hits(Journal(dir, names[i + 1..]), f)| < Limit(f);
      MoreHits(dir, names, i + 1, n, f);
      assert false;
    }
    OlderDoNotShow(dir, names, n, f);
  }

  lemma OlderDoNotShow(dir: Dir, names: seq<string>, n: nat, f: AuditFilter)
    requires n <= |names| && |Newest(Hits(Journal(dir, names[n..]), f), Limit(f))| == Limit(f)
    ensures Newest(Hits(Journal(dir, names), f), Limit(f)) == Newest(Hits(Journal(dir, names[n..]), f), Limit(f))
  {
    hide Found, Journal;
    var newer, older := Journal(dir, names[n..]), Journal(dir, names[..n]);
    assert names == names[..n] + names[n..];
    JournalAppend(dir, names[..n], names[n..]);
    FoundAppend(older, newer, f, None);
    NewestOfBoth(Hits(older, f), Hits(newer, f), Limit(f));
  }

  lemma NothingDone(dir: Dir, f: AuditFilter, names: seq<string>)
    ensures After(dir, f, Elements(names[|names|..])) == dir
    ensures names[..|names|] == names
    ensures |Hits(Journal(dir, names[|names|..]), f)| == 0
  {
    assert Elements(names[|names|..]) == {};
  }

  lemma EmptyRemaining(lines: seq<Line>, f: AuditFilter)
    requires Unfiltered(f)
    ensures Remaining(lines, f) == []
  {
  }

  lemma OneFileDone(dir: Dir, f: AuditFilter, names: seq<string>, n: nat)
    requires names == Listing(AuditFiles(dir)) && n < |names|
    ensures names[n] in dir && LinesOf(dir, names[n]) == dir[names[n]].lines
    ensures var dir' := After(dir, f, Elements(names[n + 1..]));
            var kept := Remaining(dir[names[n]].lines, f);
            && names[n] in dir' && dir'[names[n]] == dir[names[n]]
            && After(dir, f, Elements(names[n..])) == if kept == [] then dir' - {names[n]} else dir'[names[n] := File(kept, false)]
    ensures |Hits(Journal(dir, names[n..]), f)| == |Hits(dir[names[n]].lines, f)| + |Hits(Journal(dir, names[n + 1..]), f)|
  {
    OneMoreFile(dir, names, n, f, 1);
    hide LE, Sorted, Hits, Journal, Remaining;
    assert names[n] in Elements(names);
    assert names[n..] == [names[n]] + names[n + 1..];
    assert Elements(names[n..]) == Elements(names[n + 1..]) + {names[n]};
    AfterOneMore(dir, f, Elements(names[n + 1..]), names[n]);
  }

  lemma AfterOneMore(dir: Dir, f: AuditFilter, done: set<string>, name: string)
    requires name in dir && name !in done
    ensures var dir', kept := After(dir, f, done), Remaining(dir[name].lines, f);
            && name in dir' && dir'[name] == dir[name]
            && After(dir, f, done + {name}) == if kept == [] then dir' - {name} else dir'[name := File(kept, false)]
  {
    hide Remaining;
  }
}
