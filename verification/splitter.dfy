/** The line splitter on ffmpeg's output: carriage returns end a line as well. */
module Splitter {
  import opened Wrappers
  import opened Sequences

  const CR: char := '\r'
  const LF: char := '\n'

  predicate Break(c: char) {
    c == CR || c == LF
  }

  /** Up to the first break, or the whole string. */
  function RunLength(s: string): (n: nat)
    ensures n <= |s|
    ensures forall i | 0 <= i < n :: !Break(s[i])
    ensures n < |s| ==> Break(s[n])
  {
    if s == [] || Break(s[0]) then 0 else 1 + RunLength(s[1..])
  }

  datatype Scan = Scan(advance: nat, token: Option<string>)

  /** scanCRLF. */
  function ScanCRLF(data: string, atEOF: bool): (r: Scan)
    ensures r.advance <= |data|
    ensures r.token.Some? ==> r.advance > 0
  {
    var i := RunLength(data);
    if atEOF && data == [] then Scan(0, None)
    else if i < |data| then
      Scan(if data[i] == CR && i + 1 < |data| && data[i + 1] == LF then i + 2 else i + 1, Some(data[..i]))
    else if atEOF then Scan(|data|, Some(data))
    else Scan(0, None)
  }

  // ---- the scanner loop ----

  /** All tokens of a buffer at the end of the input. */
  function Lines(s: string): seq<string>
    decreases |s|
  {
    var r := ScanCRLF(s, true);
    if r.token.None? then [] else [r.token.value] + Lines(s[r.advance..])
  }

  /** The tokens the scanner takes before it must read again, and what is left over. */
  function Drain(s: string): (seq<string>, string)
    decreases |s|
  {
    var r := ScanCRLF(s, false);
    if r.token.None? then ([], s)
    else
      var (more, rest) := Drain(s[r.advance..]);
      ([r.token.value] + more, rest)
  }

  /** All tokens when the reader delivers these chunks, with `rest` already buffered. */
  function Tokens(rest: string, chunks: seq<string>): seq<string>
    decreases |chunks|
  {
    if chunks == [] then Lines(rest)
    else
      var (taken, left) := Drain(rest + chunks[0]);
      taken + Tokens(left, chunks[1..])
  }

  // ---- what the tokens are ----

  /** The maximal break-free runs, in order. */
  function Runs(s: string): seq<string>
    decreases |s|
  {
    if s == [] then []
    else if Break(s[0]) then Runs(s[1..])
    else [s[..RunLength(s)]] + Runs(s[RunLength(s)..])
  }

  function NonEmpty(tokens: seq<string>): seq<string> {
    if tokens == [] then [] else (if tokens[0] == [] then [] else [tokens[0]]) + NonEmpty(tokens[1..])
  }

  lemma {:induction false} NonEmptyAppend(a: seq<string>, b: seq<string>)
    ensures NonEmpty(a + b) == NonEmpty(a) + NonEmpty(b)
    decreases |a|
  {
    if a == [] {
      assert a + b == b;
    } else {
      assert (a + b)[1..] == a[1..] + b;
      NonEmptyAppend(a[1..], b);
    }
  }

  lemma NonEmptyCons(t: string, tokens: seq<string>)
    ensures NonEmpty([t] + tokens) == (if t == [] then [] else [t]) + NonEmpty(tokens)
  {
    assert ([t] + tokens)[1..] == tokens;
  }

  lemma RunLengthAppend(s: string, more: string)
    requires RunLength(s) < |s|
    ensures RunLength(s + more) == RunLength(s)
  {
    var i, j := RunLength(s), RunLength(s + more);
    assert (s + more)[i] == s[i];
    assert forall k | 0 <= k < i :: (s + more)[k] == s[k];
  }

  /** The first break of a buffer settles its first token, whatever is read later; only
      whether an LF behind a final CR is swallowed with it depends on the reads. */
  lemma {:induction false} ScanMore(s: string, more: string, atEOF: bool)
    requires RunLength(s) < |s|
    ensures var r, r' := ScanCRLF(s, false), ScanCRLF(s + more, atEOF);
            && r.token == Some(s[..RunLength(s)]) && r'.token == r.token
            && r'.advance == r.advance + (if r.advance == |s| && EndsCR(s) && StartsLF(more) then 1 else 0)
  {
    RunLengthAppend(s, more);
    var i := RunLength(s);
    hide RunLength;
    CutAppend(s, more, i);
    assert (s + more)[i] == s[i];
    if i + 1 < |s| {
      assert (s + more)[i + 1] == s[i + 1];
    } else if more != [] {
      assert (s + more)[i + 1] == more[0];
    }
  }

  predicate EndsCR(s: string) {
    s != [] && s[|s| - 1] == CR
  }

  predicate StartsLF(s: string) {
    s != [] && s[0] == LF
  }

  lemma RunsFromBreak(s: string)
    requires s != [] && Break(s[0])
    ensures Runs(s) == Runs(s[1..])
  {
  }

  lemma RunsFromText(s: string)
    requires s != [] && !Break(s[0])
    ensures Runs(s) == [s[..RunLength(s)]] + Runs(s[RunLength(s)..])
  {
  }

  lemma RunLengthStart(s: string)
    requires s != []
    ensures RunLength(s) == 0 <==> Break(s[0])
  {
  }

  lemma BreakAfterRun(s: string)
    requires RunLength(s) < |s|
    ensures Break(s[RunLength(s)])
  {
  }

  lemma RunsStep(s: string, n: nat)
    requires n == RunLength(s) < |s|
    ensures Runs(s) == (if n == 0 then [] else [s[..n]]) + Runs(s[n + 1..])
  {
    hide Runs, RunLength, Break;
    RunLengthStart(s);
    if n == 0 {
      RunsFromBreak(s);
      assert [] + Runs(s[1..]) == Runs(s[1..]);
    } else {
      BreakAfterRun(s);
      RunsFromText(s);
      RunsFromBreak(s[n..]);
      DropDrop(s, n, 1);
    }
  }

  lemma RunsSkip(s: string, n: nat)
    requires n < |s| && Break(s[n])
    ensures Runs(s[n..]) == Runs(s[n + 1..])
  {
    RunsFromBreak(s[n..]);
    DropDrop(s, n, 1);
    hide Runs;
  }

  lemma RunsWhole(s: string)
    requires RunLength(s) == |s|
    ensures Runs(s) == if s == [] then [] else [s]
  {
    assert s[|s|..] == [] && s[..|s|] == s;
  }

  lemma {:induction false} LinesAreRuns(s: string)
    ensures NonEmpty(Lines(s)) == Runs(s)
    decreases |s|
  {
    if s != [] {
      var n, r := RunLength(s), ScanCRLF(s, true);
      LinesAreRuns(s[r.advance..]);
      NonEmptyCons(r.token.value, Lines(s[r.advance..]));
      if n < |s| {
        RunsStep(s, n);
        if r.advance == n + 2 { RunsSkip(s, n + 1); }
      } else {
        RunsWhole(s);
        assert s[|s|..] == [];
      }
    }
  }

  lemma RunsScan(s: string, more: string)
    requires RunLength(s) < |s|
    ensures Runs(s + more) == NonEmpty([s[..RunLength(s)]]) + Runs(s[ScanCRLF(s, false).advance..] + more)
  {
    var n, r := RunLength(s), ScanCRLF(s, false);
    RunLengthAppend(s, more);
    assert Runs(s + more) == (if n == 0 then [] else [(s + more)[..n]]) + Runs((s + more)[n + 1..])
           && (r.advance == n + 2 ==> Runs((s + more)[n + 1..]) == Runs((s + more)[n + 2..])) by {
      RunsStep(s + more, n);
      if r.advance == n + 2 {
        assert (s + more)[n + 1] == s[n + 1];
        RunsSkip(s + more, n + 1);
      }
    }
    hide Runs, RunLength;
    CutAppend(s, more, n);
    CutAppend(s, more, r.advance);
    assert NonEmpty([s[..n]]) == if n == 0 then [] else [s[..n]];
  }

  lemma {:induction false} DrainRuns(s: string, more: string)
    ensures NonEmpty(Drain(s).0) + Runs(Drain(s).1 + more) == Runs(s + more)
    ensures RunLength(Drain(s).1) == |Drain(s).1|
    decreases |s|
  {
    var n, r := RunLength(s), ScanCRLF(s, false);
    hide Runs, NonEmpty, RunLength;
    if n < |s| {
      var next := s[r.advance..];
      DrainRuns(next, more);
      RunsScan(s, more);
      NonEmptyAppend([s[..n]], Drain(next).0);
      Assoc(NonEmpty([s[..n]]), NonEmpty(Drain(next).0), Runs(Drain(next).1 + more));
    } else {
      NonEmptyNothing();
      assert [] + Runs(s + more) == Runs(s + more);
    }
  }

  lemma NonEmptyNothing()
    ensures NonEmpty([]) == []
  {
  }

  /** However the reader cuts the output into chunks, the non-empty tokens are exactly
      the maximal runs without CR or LF, in order. */
  lemma {:induction false} TokensAreRuns(rest: string, chunks: seq<string>)
    ensures NonEmpty(Tokens(rest, chunks)) == Runs(rest + Flatten(chunks))
    decreases |chunks|
  {
    if chunks == [] {
      LinesAreRuns(rest);
      assert rest + [] == rest;
    } else {
      hide Runs, Drain;
      var (taken, left) := Drain(rest + chunks[0]);
      TokensAreRuns(left, chunks[1..]);
      NonEmptyAppend(taken, Tokens(left, chunks[1..]));
      DrainRuns(rest + chunks[0], Flatten(chunks[1..]));
      Assoc(rest, chunks[0], Flatten(chunks[1..]));
    }
  }

  // ---- what the chunks change ----

  /** How many CR LF pairs fall across a boundary between chunks. */
  function Torn(chunks: seq<string>): nat {
    if chunks == [] then 0
    else (if EndsCR(chunks[0]) && StartsLF(Flatten(chunks[1..])) then 1 else 0) + Torn(chunks[1..])
  }

  lemma LinesCons(s: string, r: Scan)
    requires r == ScanCRLF(s, true) && r.token.Some?
    ensures Lines(s) == [r.token.value] + Lines(s[r.advance..])
  {
  }

  lemma {:induction false} LinesAfterBreak(s: string, more: string)
    requires RunLength(s) < |s|
    ensures var r := ScanCRLF(s, false);
            && r.token.Some?
            && Lines(s + more) == [r.token.value] +
                 Lines(if r.advance == |s| && EndsCR(s) && StartsLF(more) then more[1..] else s[r.advance..] + more)
  {
    hide Lines, RunLength, ScanCRLF, EndsCR;
    ScanMore(s, more, true);
    var r, r' := ScanCRLF(s, false), ScanCRLF(s + more, true);
    LinesCons(s + more, r');
    if r'.advance == r.advance {
      CutAppend(s, more, r.advance);
    } else {
      assert (s + more)[|s| + 1..] == more[1..];
    }
  }

  lemma LinesFromLF(s: string)
    requires StartsLF(s)
    ensures Lines(s) == [[]] + Lines(s[1..])
  {
    assert RunLength(s) == 0 && s[..0] == [];
  }

  /** Draining early adds one empty token if it tears a CR LF pair, and nothing else. */
  lemma {:induction false} DrainLines(s: string, more: string)
    ensures |Drain(s).0| + |Lines(Drain(s).1 + more)| == |Lines(s + more)| + if EndsCR(s) && StartsLF(more) then 1 else 0
    ensures !(EndsCR(s) && StartsLF(more)) ==> Drain(s).0 + Lines(Drain(s).1 + more) == Lines(s + more)
    decreases |s|
  {
    hide Lines, Drain, RunLength;
    var n, r := RunLength(s), ScanCRLF(s, false);
    DrainStep(s);
    if n < |s| {
      var next := s[r.advance..];
      LinesAfterBreak(s, more);
      DrainLines(next, more);
      if next == [] {
        assert next + more == more;
        if StartsLF(more) { LinesFromLF(more); }
      } else {
        assert next[|next| - 1] == s[|s| - 1];
      }
      Assoc([r.token.value], Drain(next).0, Lines(Drain(next).1 + more));
    } else {
      NoBreakAtEnd(s);
      assert [] + Lines(s + more) == Lines(s + more);
    }
  }

  lemma DrainStep(s: string)
    ensures var r := ScanCRLF(s, false);
            if RunLength(s) < |s|
            then r.token.Some? && Drain(s) == ([r.token.value] + Drain(s[r.advance..]).0, Drain(s[r.advance..]).1)
            else Drain(s) == ([], s)
  {
  }

  /** The number of tokens grows by exactly the torn pairs, and without torn pairs the
      tokens are those of the whole output read at once. */
  lemma {:induction false} ChunksOnlyTear(rest: string, chunks: seq<string>)
    requires RunLength(rest) == |rest|
    ensures |Tokens(rest, chunks)| == |Lines(rest + Flatten(chunks))| + Torn(chunks)
    ensures Tokens(rest, chunks) == Lines(rest + Flatten(chunks)) <==> Torn(chunks) == 0
    decreases |chunks|
  {
    if chunks == [] {
      assert rest + [] == rest;
    } else {
      hide Lines, Drain, RunLength;
      var s, more := rest + chunks[0], Flatten(chunks[1..]);
      var (taken, left) := Drain(s);
      DrainRuns(s, more);
      DrainLines(s, more);
      Assoc(rest, chunks[0], more);
      ChunksOnlyTear(left, chunks[1..]);
      assert EndsCR(s) == EndsCR(chunks[0]) by {
        if chunks[0] == [] { assert s == rest; NoBreakAtEnd(rest); }
      }
    }
  }

  lemma NoBreakAtEnd(s: string)
    requires RunLength(s) == |s|
    ensures !EndsCR(s)
  {
    if s != [] { assert !Break(s[|s| - 1]); }
  }

  // ---- the limit on a line ----

  /** maxLogLineBytes. */
  const MAX_LINE: nat := 0x10_0000

  /** A read fills at most what is left of the buffer; the pipe keeps the rest. */
  function Read(rest: string, chunks: seq<string>, limit: nat): (r: (string, seq<string>))
    requires |rest| < limit && chunks != []
    ensures Flatten(chunks) == r.0 + Flatten(r.1) && |rest + r.0| <= limit
    ensures |Flatten(r.1)| < |Flatten(chunks)| || (|Flatten(r.1)| == |Flatten(chunks)| && |r.1| < |chunks|)
  {
    var room, chunk := limit - |rest|, chunks[0];
    if |chunk| <= room then (chunk, chunks[1..])
    else
      assert Flatten([chunk[room..]] + chunks[1..]) == chunk[room..] + Flatten(chunks[1..]) by {
        FlattenCons(chunk[room..], chunks[1..]);
      }
      assert chunk == chunk[..room] + chunk[room..];
      (chunk[..room], [chunk[room..]] + chunks[1..])
  }

  /** What the scanner delivers, and whether it got to the end: it gives up when the buffer
      is full and holds no break. */
  function Scanned(rest: string, chunks: seq<string>, limit: nat): (seq<string>, bool)
    decreases |Flatten(chunks)|, |chunks|
  {
    if |rest| >= limit then ([], false)
    else if chunks == [] then (Lines(rest), true)
    else
      var (read, unread) := Read(rest, chunks, limit);
      var (taken, left) := Drain(rest + read);
      var (more, ok) := Scanned(left, unread, limit);
      (taken + more, ok)
  }

  /** The reads that the scanner makes. */
  function Reads(rest: string, chunks: seq<string>, limit: nat): seq<string>
    decreases |Flatten(chunks)|, |chunks|
  {
    if |rest| >= limit || chunks == [] then []
    else
      var (read, unread) := Read(rest, chunks, limit);
      [read] + Reads(Drain(rest + read).1, unread, limit)
  }

  /** The runs before the first one that reaches the limit. */
  function UpTo(runs: seq<string>, limit: nat): seq<string> {
    if runs == [] || |runs[0]| >= limit then [] else [runs[0]] + UpTo(runs[1..], limit)
  }

  predicate AllShort(runs: seq<string>, limit: nat) {
    forall i | 0 <= i < |runs| :: |runs[i]| < limit
  }

  lemma {:induction false} UpToAppend(a: seq<string>, b: seq<string>, limit: nat)
    requires AllShort(a, limit)
    ensures UpTo(a + b, limit) == a + UpTo(b, limit)
    ensures AllShort(a + b, limit) <==> AllShort(b, limit)
    decreases |a|
  {
    ShortAppend(a, b, limit);
    if a == [] {
      assert a + b == b && [] + UpTo(b, limit) == UpTo(b, limit);
    } else {
      assert (a + b)[1..] == a[1..] + b;
      UpToAppend(a[1..], b, limit);
    }
  }

  lemma ShortAppend(a: seq<string>, b: seq<string>, limit: nat)
    requires AllShort(a, limit)
    ensures AllShort(a + b, limit) <==> AllShort(b, limit)
  {
    if AllShort(a + b, limit) {
      forall i | 0 <= i < |b| ensures |b[i]| < limit { assert (a + b)[|a| + i] == b[i]; }
    }
  }

  /** A token that is taken before the end is shorter than the buffer: its break is there too. */
  lemma {:induction false} DrainShort(s: string)
    ensures AllShort(NonEmpty(Drain(s).0), |s|)
    ensures |Drain(s).1| <= |s|
    decreases |s|
  {
    hide RunLength;
    var r := ScanCRLF(s, false);
    if r.token.Some? {
      DrainShort(s[r.advance..]);
      ShorterStill(NonEmpty(Drain(s[r.advance..]).0), |s| - r.advance, |s|);
      NonEmptyCons(r.token.value, Drain(s[r.advance..]).0);
    }
  }

  lemma ShorterStill(runs: seq<string>, limit: nat, larger: nat)
    requires AllShort(runs, limit) && limit <= larger
    ensures AllShort(runs, larger)
  {
  }

  /** A full buffer without a break begins a run that reaches the limit. */
  lemma FullBuffer(rest: string, more: string, limit: nat)
    requires 0 < limit <= |rest| && RunLength(rest) == |rest|
    ensures UpTo(Runs(rest + more), limit) == [] && !AllShort(Runs(rest + more), limit)
  {
    var n := RunLength(rest + more);
    assert forall i | 0 <= i < |rest| :: (rest + more)[i] == rest[i] && !Break(rest[i]);
    assert n >= |rest|;
    RunsFromText(rest + more);
    hide Runs, RunLength;
    assert |Runs(rest + more)[0]| >= limit;
  }

  lemma LastLine(rest: string, limit: nat)
    requires |rest| < limit && RunLength(rest) == |rest|
    ensures NonEmpty(Lines(rest)) == UpTo(Runs(rest), limit) && AllShort(Runs(rest), limit)
  {
    LinesAreRuns(rest);
    RunsWhole(rest);
    hide Runs, Lines, RunLength;
  }

  /** For every chunking: the non-empty tokens are the maximal runs before the first one that
      is as long as the limit, and the scanner gets to the end if and only if there is none. */
  lemma {:induction false} ScannedRuns(rest: string, chunks: seq<string>, limit: nat)
    requires 0 < limit && |rest| <= limit && RunLength(rest) == |rest|
    ensures var (tokens, ok) := Scanned(rest, chunks, limit);
            && NonEmpty(tokens) == UpTo(Runs(rest + Flatten(chunks)), limit)
            && ok == AllShort(Runs(rest + Flatten(chunks)), limit)
    decreases |Flatten(chunks)|, |chunks|
  {
    if |rest| >= limit {
      FullBuffer(rest, Flatten(chunks), limit);
    } else if chunks == [] {
      assert rest + [] == rest;
      LastLine(rest, limit);
    } else {
      hide Runs, Drain, RunLength, UpTo, AllShort, NonEmpty, Flatten;
      var (read, unread) := Read(rest, chunks, limit);
      var (taken, left) := Drain(rest + read);
      Assoc(rest, read, Flatten(unread));
      DrainRuns(rest + read, Flatten(unread));
      DrainShort(rest + read);
      ShorterStill(NonEmpty(taken), |rest + read|, limit);
      UpToAppend(NonEmpty(taken), Runs(left + Flatten(unread)), limit);
      ScannedRuns(left, unread, limit);
      NonEmptyAppend(taken, Scanned(left, unread, limit).0);
    }
  }

  /** A scanner that gets to the end delivers the tokens of the reads it makes, which put
      together are all of the output; the limit only cuts the reads. */
  lemma {:induction false} ScannedTokens(rest: string, chunks: seq<string>, limit: nat)
    requires Scanned(rest, chunks, limit).1
    ensures Scanned(rest, chunks, limit).0 == Tokens(rest, Reads(rest, chunks, limit))
    ensures Flatten(Reads(rest, chunks, limit)) == Flatten(chunks)
    decreases |Flatten(chunks)|, |chunks|
  {
    if chunks != [] {
      hide Drain;
      var (read, unread) := Read(rest, chunks, limit);
      var left := Drain(rest + read).1;
      ScannedTokens(left, unread, limit);
      var others := Reads(left, unread, limit);
      assert ([read] + others)[0] == read && ([read] + others)[1..] == others;
    }
  }

  // ---- the code ----

  /** The scanning loop of captureStderr and captureProgress over what the pipe delivers:
      the tokens handed to the body, and false if the scanner gives up on a line. */
  method ScanAll(chunks: seq<string>) returns (tokens: seq<string>, ok: bool)
    ensures (tokens, ok) == Scanned([], chunks, MAX_LINE)
    ensures NonEmpty(tokens) == UpTo(Runs(Flatten(chunks)), 1_048_576)
    ensures ok == AllShort(Runs(Flatten(chunks)), 1_048_576)
  {
    hide Lines, Drain, Runs, Flatten, NonEmpty, UpTo, AllShort;
    ScannedRuns([], chunks, MAX_LINE);
    assert [] + Flatten(chunks) == Flatten(chunks);
    tokens := [];
    var buffer, unread := "", chunks;
    assert [] + Scanned([], chunks, MAX_LINE).0 == Scanned([], chunks, MAX_LINE).0;
    while |buffer| < MAX_LINE && unread != []
      invariant tokens + Scanned(buffer, unread, MAX_LINE).0 == Scanned([], chunks, MAX_LINE).0
      invariant Scanned(buffer, unread, MAX_LINE).1 == Scanned([], chunks, MAX_LINE).1
      decreases |Flatten(unread)|, |unread|
    {
      var (read, later) := Read(buffer, unread, MAX_LINE);
      var taken, left := TakeTokens(buffer + read);
      Assoc(tokens, taken, Scanned(left, later, MAX_LINE).0);
      tokens := tokens + taken;
      buffer, unread := left, later;
    }
    if |buffer| >= MAX_LINE {
      assert tokens + [] == tokens;
      return tokens, false;
    }
    var last := TakeLast(buffer);
    return tokens + last, true;
  }

  /** Scan until a read is needed. */
  method TakeTokens(data: string) returns (tokens: seq<string>, rest: string)
    ensures (tokens, rest) == Drain(data)
  {
    tokens, rest := [], data;
    while true
      invariant tokens + Drain(rest).0 == Drain(data).0 && Drain(rest).1 == Drain(data).1
      decreases |rest|
    {
      var r := ScanCRLF(rest, false);
      if r.token.None? {
        assert Drain(rest) == ([], rest);
        assert tokens + [] == tokens;
        break;
      }
      Assoc(tokens, [r.token.value], Drain(rest[r.advance..]).0);
      tokens := tokens + [r.token.value];
      rest := rest[r.advance..];
    }
  }

  /** Scan at the end of the input. */
  method TakeLast(data: string) returns (tokens: seq<string>)
    ensures tokens == Lines(data)
  {
    tokens := [];
    var rest := data;
    while true
      invariant tokens + Lines(rest) == Lines(data)
      decreases |rest|
    {
      var r := ScanCRLF(rest, true);
      if r.token.None? {
        break;
      }
      Assoc(tokens, [r.token.value], Lines(rest[r.advance..]));
      tokens := tokens + [r.token.value];
      rest := rest[r.advance..];
    }
  }
}
