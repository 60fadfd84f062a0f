/** What the splitter's runs and lines are, character by character. */
module LineMeaning {
  import opened Wrappers
  import opened Sequences
  import opened Splitter

  predicate NoBreaks(s: string) {
    forall i | 0 <= i < |s| :: s[i] != '\r' && s[i] != '\n'
  }

  predicate OnlyBreaks(s: string) {
    forall i | 0 <= i < |s| :: s[i] == '\r' || s[i] == '\n'
  }

  // ---- runs ----

  /** gaps[0] runs[0] gaps[1] runs[1] ... */
  function Woven(gaps: seq<string>, runs: seq<string>): string
    requires |gaps| == |runs| + 1
  {
    if runs == [] then gaps[0] else gaps[0] + runs[0] + Woven(gaps[1..], runs[1..])
  }

  lemma WovenCons(gap: string, run: string, gaps: seq<string>, runs: seq<string>)
    requires |gaps| == |runs| + 1
    ensures Woven([gap] + gaps, [run] + runs) == gap + run + Woven(gaps, runs)
  {
    assert ([gap] + gaps)[1..] == gaps && ([run] + runs)[1..] == runs;
  }

  lemma WovenLonger(c: string, gaps: seq<string>, runs: seq<string>)
    requires |gaps| == |runs| + 1
    ensures Woven(gaps[0 := c + gaps[0]], runs) == c + Woven(gaps, runs)
  {
    if runs != [] {
      assert gaps[0 := c + gaps[0]][1..] == gaps[1..];
      Assoc(c, gaps[0], runs[0]);
      Assoc(c, gaps[0] + runs[0], Woven(gaps[1..], runs[1..]));
    }
  }

  /** A string is its runs with breaks around them: each run has text and no break, and any
      two are kept apart by at least one break. */
  ghost predicate Weaves(gaps: seq<string>, runs: seq<string>, s: string) {
    && |gaps| == |runs| + 1 && Woven(gaps, runs) == s
    && (forall k | 0 <= k < |runs| :: runs[k] != "" && NoBreaks(runs[k]))
    && (forall k | 0 <= k < |gaps| :: OnlyBreaks(gaps[k]))
    && (forall k | 0 < k < |runs| :: gaps[k] != "")
  }

  lemma MoreBreaks(c: string, gaps: seq<string>, runs: seq<string>, s: string)
    requires Weaves(gaps, runs, s) && OnlyBreaks(c) && c != ""
    ensures Weaves(gaps[0 := c + gaps[0]], runs, c + s)
  {
    WovenLonger(c, gaps, runs);
    hide Woven;
  }

  lemma MoreText(run: string, gaps: seq<string>, runs: seq<string>, s: string)
    requires Weaves(gaps, runs, s) && NoBreaks(run) && run != "" && (runs != [] ==> gaps[0] != "")
    ensures Weaves([""] + gaps, [run] + runs, run + s)
  {
    WovenCons("", run, gaps, runs);
    hide Woven;
    assert "" + run == run;
    var g, r := [""] + gaps, [run] + runs;
    forall k | 0 < k < |r| ensures g[k] != "" { assert g[k] == gaps[k - 1]; }
    assert forall k | 0 < k < |g| :: g[k] == gaps[k - 1];
    assert forall k | 0 < k < |r| :: r[k] == runs[k - 1];
  }

  lemma {:induction false} RunsExactly(s: string) returns (gaps: seq<string>)
    ensures Weaves(gaps, Runs(s), s)
    ensures s != "" && OnlyBreaks(s[..1]) ==> gaps[0] != ""
    decreases |s|
  {
    hide Weaves, RunLength;
    if s == "" {
      gaps := [""];
      NothingWoven();
    } else if Break(s[0]) {
      var rest := RunsExactly(s[1..]);
      WeaveSizes(rest, Runs(s[1..]), s[1..]);
      MoreBreaks(s[..1], rest, Runs(s[1..]), s[1..]);
      gaps := rest[0 := s[..1] + rest[0]];
      assert s == s[..1] + s[1..];
    } else {
      var n := RunLength(s);
      RunLengthStart(s);
      var rest := RunsExactly(s[n..]);
      TextFree(s);
      BreakNext(s);
      WeaveSizes(rest, Runs(s[n..]), s[n..]);
      MoreText(s[..n], rest, Runs(s[n..]), s[n..]);
      gaps := [""] + rest;
      assert s == s[..n] + s[n..];
    }
  }

  lemma NothingWoven()
    ensures Weaves([""], [], "") && Runs("") == []
  {
  }

  lemma WeaveSizes(gaps: seq<string>, runs: seq<string>, s: string)
    requires Weaves(gaps, runs, s)
    ensures |gaps| == |runs| + 1
  {
  }

  lemma TextFree(s: string)
    ensures NoBreaks(s[..RunLength(s)])
  {
    hide RunLength;
  }

  lemma BreakNext(s: string)
    ensures var rest := s[RunLength(s)..]; rest != "" ==> OnlyBreaks(rest[..1])
    ensures s[RunLength(s)..] == "" ==> Runs(s[RunLength(s)..]) == []
  {
    hide RunLength;
  }

  // ---- lines ----

  /** lines[0] ends[0] lines[1] ends[1] ... */
  function Text(lines: seq<string>, ends: seq<string>): string
    requires |lines| == |ends|
  {
    if lines == [] then "" else lines[0] + ends[0] + Text(lines[1..], ends[1..])
  }

  lemma TextCons(line: string, end: string, lines: seq<string>, ends: seq<string>)
    requires |lines| == |ends|
    ensures Text([line] + lines, [end] + ends) == line + end + Text(lines, ends)
  {
    assert ([line] + lines)[1..] == lines && ([end] + ends)[1..] == ends;
  }

  /** Every line ends with CR LF, CR or LF, only the last one may be without if it has text,
      and no CR is taken alone before an LF. */
  ghost predicate Terminates(lines: seq<string>, ends: seq<string>, s: string) {
    && |ends| == |lines| && Text(lines, ends) == s
    && (forall k | 0 <= k < |lines| :: NoBreaks(lines[k]))
    && (forall k | 0 <= k < |ends| ::
          || ends[k] == "\r\n" || ends[k] == "\n" || ends[k] == "\r"
          || (ends[k] == "" && k == |ends| - 1 && lines[k] != ""))
    && (forall k | 0 <= k < |ends| - 1 :: ends[k] == "\r" ==> !("\n" <= lines[k + 1] + ends[k + 1]))
  }

  lemma OneMoreEnd(line: string, end: string, lines: seq<string>, ends: seq<string>, s: string)
    requires Terminates(lines, ends, s) && NoBreaks(line)
    requires end == "\r\n" || end == "\n" || (end == "\r" && !("\n" <= s)) || (end == "" && line != "" && lines == [])
    ensures Terminates([line] + lines, [end] + ends, line + end + s)
  {
    TextCons(line, end, lines, ends);
    var l, e := [line] + lines, [end] + ends;
    assert forall k | 0 < k < |l| :: l[k] == lines[k - 1] && e[k] == ends[k - 1];
    if lines != [] { FirstOf(lines, ends, s); }
    hide Text;
  }

  lemma FirstOf(lines: seq<string>, ends: seq<string>, s: string)
    requires Terminates(lines, ends, s) && lines != []
    ensures "\n" <= lines[0] + ends[0] <==> "\n" <= s
  {
    assert s == lines[0] + ends[0] + Text(lines[1..], ends[1..]);
    if lines[0] + ends[0] == "" {
      assert false;
    }
  }

  /** The lines of a buffer at the end of the input, empty ones included. */
  lemma {:induction false} LinesExactly(s: string) returns (ends: seq<string>)
    ensures Terminates(Lines(s), ends, s)
    decreases |s|
  {
    hide Terminates, RunLength;
    if s == "" {
      ends := [];
      NoLines();
    } else {
      var n, r := RunLength(s), ScanCRLF(s, true);
      var rest := LinesExactly(s[r.advance..]);
      TextFree(s);
      var end := s[n..r.advance];
      EndIs(s);
      OneMoreEnd(s[..n], end, Lines(s[r.advance..]), rest, s[r.advance..]);
      ends := [end] + rest;
      LinesCons(s, r);
      assert s == s[..n] + end + s[r.advance..];
    }
  }

  lemma NoLines()
    ensures Terminates([], [], "") && Lines("") == []
  {
  }

  lemma EndIs(s: string)
    requires s != ""
    ensures var n, r := RunLength(s), ScanCRLF(s, true);
            && n <= r.advance <= |s| && r.token == Some(s[..n])
            && var end, rest := s[n..r.advance], s[r.advance..];
               || end == "\r\n" || end == "\n" || (end == "\r" && !("\n" <= rest)) || (end == "" && s[..n] != "" && Lines(rest) == [])
  {
    hide RunLength, Lines;
    var n := RunLength(s);
    if n == |s| {
      NoLines();
      assert s[..n] == s && s[n..n] == "" && s[n..] == "";
    } else {
      BreakAfterRun(s);
      EndAt(s, n);
    }
  }

  lemma EndAt(s: string, n: nat)
    requires n < |s| && (s[n] == '\r' || s[n] == '\n')
    ensures s[n..n + 1] == "\n" || s[n..n + 1] == "\r"
    ensures s[n] == '\r' && n + 1 < |s| && s[n + 1] == '\n' ==> s[n..n + 2] == "\r\n"
    ensures s[n..n + 1] == "\r" && !(n + 1 < |s| && s[n + 1] == '\n') ==> !("\n" <= s[n + 1..])
  {
    assert s[n..n + 1] == [s[n]];
    if n + 1 < |s| { assert s[n..n + 2] == [s[n], s[n + 1]] && s[n + 1..][0] == s[n + 1]; }
  }
}
