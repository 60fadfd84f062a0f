/** Failure-carrying results and the few string operations the Go code relies on.
    A Go string is modelled as its bytes, one char each. */
module Wrappers {
  datatype Option<+T> = None | Some(value: T)

  datatype Result<+T> = Ok(value: T) | Err(reason: string)
}

/** Sequence algebra, one step at a time. */
module Sequences {
  lemma Assoc<T>(a: seq<T>, b: seq<T>, c: seq<T>)
    ensures (a + b) + c == a + (b + c)
  {
  }

  lemma CutAppend<T>(a: seq<T>, b: seq<T>, n: nat)
    requires n <= |a|
    ensures (a + b)[..n] == a[..n]
    ensures (a + b)[n..] == a[n..] + b
  {
  }

  lemma DropDrop<T>(s: seq<T>, m: nat, n: nat)
    requires m + n <= |s|
    ensures s[m..][..n] == s[m..m + n]
    ensures s[m..][n..] == s[m + n..]
  {
  }

  /** Places of a sequence of this size, in order. */
  predicate Ascending(at: seq<nat>, size: nat) {
    && (forall k | 0 <= k < |at| :: at[k] < size)
    && (forall j, k | 0 <= j < k < |at| :: at[j] < at[k])
  }

  lemma OneMorePlace(at: seq<nat>, size: nat)
    requires Ascending(at, size)
    ensures Ascending(at, size + 1) && Ascending(at + [size], size + 1)
  {
  }

  /** What is picked out of s at these places, in order. */
  predicate Picked<T(==)>(s: seq<T>, at: seq<nat>, out: seq<T>) {
    Ascending(at, |s|) && |out| == |at| && forall k | 0 <= k < |at| :: out[k] == s[at[k]]
  }

  function Shifted(at: seq<nat>): seq<nat> {
    seq(|at|, k requires 0 <= k < |at| => at[k] + 1)
  }

  lemma ShiftedPlaces(at: seq<nat>, size: nat)
    requires Ascending(at, size)
    ensures Ascending(Shifted(at), size + 1) && Ascending([0] + Shifted(at), size + 1)
    ensures forall i: nat :: (i in Shifted(at) <==> i > 0 && i - 1 in at)
  {
    forall i: nat ensures i in Shifted(at) <==> i > 0 && i - 1 in at {
      if i > 0 && i - 1 in at {
        var k :| 0 <= k < |at| && at[k] == i - 1;
        assert Shifted(at)[k] == i;
      }
    }
  }

  /** Picking from a tail, with or without the head. */
  lemma PickedTail<T>(s: seq<T>, at: seq<nat>, out: seq<T>)
    requires s != [] && Picked(s[1..], at, out)
    ensures Picked(s, Shifted(at), out) && Picked(s, [0] + Shifted(at), [s[0]] + out)
    ensures forall i: nat :: (i in Shifted(at) <==> i > 0 && i - 1 in at)
    ensures forall i: nat :: (i in [0] + Shifted(at) <==> i == 0 || i - 1 in at)
  {
    ShiftedPlaces(at, |s| - 1);
  }

  function Flatten<T>(parts: seq<seq<T>>): seq<T> {
    if parts == [] then [] else parts[0] + Flatten(parts[1..])
  }

  lemma FlattenCons<T>(head: seq<T>, tail: seq<seq<T>>)
    ensures Flatten([head] + tail) == head + Flatten(tail)
  {
    assert ([head] + tail)[1..] == tail;
  }

  lemma {:induction false} FlattenAppend<T>(parts: seq<seq<T>>, more: seq<seq<T>>)
    ensures Flatten(parts + more) == Flatten(parts) + Flatten(more)
  {
    if parts == [] {
      assert parts + more == more;
    } else {
      var head, tail := parts[0], parts[1..];
      FlattenAppend(tail, more);
      assert parts == [head] + tail;
      Assoc([head], tail, more);
      FlattenCons(head, tail + more);
      Assoc(head, Flatten(tail), Flatten(more));
    }
  }
}

module Text {
  import opened Sequences

  const NUL: char := '\0'

  // ---- white space, as unicode.IsSpace has it, in UTF-8 ----

  predicate IsSpace(c: char) {
    c in {' ', '\t', '\n', '\r', 11 as char, 12 as char}
  }

  /** U+0085 and U+00A0. */
  predicate IsSpace2(a: char, b: char) {
    a as int == 0xC2 && (b as int == 0x85 || b as int == 0xA0)
  }

  /** U+1680, U+2000 to U+200A, U+2028, U+2029, U+202F, U+205F and U+3000. */
  predicate IsSpace3(a: char, b: char, c: char) {
    var (x, y, z) := (a as int, b as int, c as int);
    || (x == 0xE1 && y == 0x9A && z == 0x80)
    || (x == 0xE2 && y == 0x80 && (0x80 <= z <= 0x8A || z == 0xA8 || z == 0xA9 || z == 0xAF))
    || (x == 0xE2 && y == 0x81 && z == 0x9F)
    || (x == 0xE3 && y == 0x80 && z == 0x80)
  }

  /** The length of a leading white-space character, or 0. */
  function LeadingSpace(s: string): (n: nat)
    ensures n <= |s|
  {
    if |s| >= 1 && IsSpace(s[0]) then 1
    else if |s| >= 2 && IsSpace2(s[0], s[1]) then 2
    else if |s| >= 3 && IsSpace3(s[0], s[1], s[2]) then 3
    else 0
  }

  function TrailingSpace(s: string): (n: nat)
    ensures n <= |s|
  {
    var m := |s|;
    if m >= 1 && IsSpace(s[m - 1]) then 1
    else if m >= 2 && IsSpace2(s[m - 2], s[m - 1]) then 2
    else if m >= 3 && IsSpace3(s[m - 3], s[m - 2], s[m - 1]) then 3
    else 0
  }

  function TrimLeft(s: string): string {
    if LeadingSpace(s) > 0 then TrimLeft(s[LeadingSpace(s)..]) else s
  }

  function TrimRight(s: string): string {
    if TrailingSpace(s) > 0 then TrimRight(s[..|s| - TrailingSpace(s)]) else s
  }

  /** strings.TrimSpace. */
  function Trim(s: string): string {
    TrimRight(TrimLeft(s))
  }

  predicate Trimmed(s: string) {
    LeadingSpace(s) == 0 && TrailingSpace(s) == 0
  }

  /** Trimming keeps a trimmed string and always yields one. */
  lemma {:induction false} TrimIsTrimmed(s: string)
    ensures Trimmed(Trim(s))
    ensures Trimmed(s) ==> Trim(s) == s
  {
    TrimLeftStart(s);
    TrimRightEnd(TrimLeft(s));
    PrefixKeepsStart(TrimLeft(s), Trim(s));
  }

  /** Nothing but white space. */
  predicate Blank(s: string) {
    s == [] || (LeadingSpace(s) > 0 && Blank(s[LeadingSpace(s)..]))
  }

  predicate BlankEnd(s: string) {
    s == [] || (TrailingSpace(s) > 0 && BlankEnd(s[..|s| - TrailingSpace(s)]))
  }

  /** Trimming cuts off white space in front and behind, and nothing else. */
  lemma {:induction false} TrimCuts(s: string) returns (before: string, after: string)
    ensures s == before + Trim(s) + after && Blank(before) && BlankEnd(after)
  {
    before := CutLeft(s);
    after := CutRight(TrimLeft(s));
    Assoc(before, Trim(s), after);
  }

  lemma {:induction false} CutLeft(s: string) returns (before: string)
    ensures s == before + TrimLeft(s) && Blank(before)
  {
    before := "";
    var n := LeadingSpace(s);
    if n > 0 {
      var rest := CutLeft(s[n..]);
      before := s[..n] + rest;
      SpaceFirst(s, n, rest);
      Assoc(s[..n], rest, TrimLeft(s[n..]));
      assert s == s[..n] + s[n..];
    }
  }

  lemma SpaceFirst(s: string, n: nat, rest: string)
    requires n == LeadingSpace(s) > 0 && Blank(rest)
    ensures Blank(s[..n] + rest)
  {
    var t := s[..n] + rest;
    assert forall i | 0 <= i < n :: t[i] == s[i];
    assert LeadingSpace(t) == n;
    assert t[n..] == rest;
  }

  lemma TrimRightStep(s: string)
    ensures TrimRight(s) == if TrailingSpace(s) > 0 then TrimRight(s[..|s| - TrailingSpace(s)]) else s
    ensures BlankEnd("")
  {
    hide TrailingSpace;
  }

  lemma {:induction false} CutRight(s: string) returns (after: string)
    ensures s == TrimRight(s) + after && BlankEnd(after)
  {
    hide TrailingSpace, TrimRight, BlankEnd;
    after := "";
    TrimRightStep(s);
    var n := TrailingSpace(s);
    if n > 0 {
      var m := |s| - n;
      var rest := CutRight(s[..m]);
      after := rest + s[m..];
      SpaceLast(s, n, rest);
      Assoc(TrimRight(s[..m]), rest, s[m..]);
      assert s == s[..m] + s[m..];
    } else {
      assert s + "" == s;
    }
  }

  lemma SpaceLast(s: string, n: nat, rest: string)
    requires n == TrailingSpace(s) > 0 && BlankEnd(rest)
    ensures BlankEnd(rest + s[|s| - n..])
  {
    var t := rest + s[|s| - n..];
    assert t[|t| - 1] == s[|s| - 1];
    if n >= 2 { assert t[|t| - 2] == s[|s| - 2]; }
    if n >= 3 { assert t[|t| - 3] == s[|s| - 3]; }
    assert TrailingSpace(t) == n;
    assert t[..|t| - n] == rest;
  }

  /** The characters taken for white space, by code point. */
  lemma SpacesByCodePoint(u: nat)
    ensures u < 0x80 ==> (IsSpace(u as char) <==> u == 0x20 || 0x09 <= u <= 0x0D)
    ensures 0x80 <= u < 0x800 ==> (IsSpace2((0xC0 + u / 64) as char, (0x80 + u % 64) as char) <==> u == 0x85 || u == 0xA0)
    ensures 0x800 <= u < 0xD800 ==>
              (IsSpace3((0xE0 + u / 4096) as char, (0x80 + u / 64 % 64) as char, (0x80 + u % 64) as char) <==>
               u == 0x1680 || 0x2000 <= u <= 0x200A || u == 0x2028 || u == 0x2029 || u == 0x202F || u == 0x205F || u == 0x3000)
  {
  }

  lemma {:induction false} TrimLeftStart(s: string)
    ensures LeadingSpace(TrimLeft(s)) == 0
  {
    if LeadingSpace(s) > 0 { TrimLeftStart(s[LeadingSpace(s)..]); }
  }

  lemma {:induction false} TrimRightEnd(s: string)
    ensures TrailingSpace(TrimRight(s)) == 0
    ensures TrimRight(s) <= s
  {
    if TrailingSpace(s) > 0 { TrimRightEnd(s[..|s| - TrailingSpace(s)]); }
  }

  lemma PrefixKeepsStart(s: string, prefix: string)
    requires prefix <= s && LeadingSpace(s) == 0
    ensures LeadingSpace(prefix) == 0
  {
  }

  /** In ASCII only the ends themselves matter. */
  lemma ASCIITrimmed(s: string)
    requires s != [] ==> !IsSpace(s[0]) && !IsSpace(s[|s| - 1])
    requires forall i | 0 <= i < |s| :: s[i] as int < 128
    ensures Trimmed(s)
  {
  }

  function IndexOf(s: string, c: char): (i: nat)
    requires c in s
    ensures i < |s| && s[i] == c && c !in s[..i]
  {
    if s[0] == c then 0 else 1 + IndexOf(s[1..], c)
  }

  /** strings.Split with a one-byte separator. */
  function Split(s: string, sep: char): (fields: seq<string>)
    ensures fields != []
  {
    if sep !in s then [s]
    else var i := IndexOf(s, sep); [s[..i]] + Split(s[i + 1..], sep)
  }

  function Join(fields: seq<string>, sep: char): string
    requires fields != []
  {
    if |fields| == 1 then fields[0] else fields[0] + [sep] + Join(fields[1..], sep)
  }

  /** A string is cut at the first separator in exactly one way. */
  lemma FirstCutUnique(a: string, b: string, a': string, b': string, c: char)
    requires a + [c] + b == a' + [c] + b'
    requires c !in a && c !in a'
    ensures a == a' && b == b'
  {
    var s := a + [c] + b;
    assert s[|a|] == c && s[|a'|] == c;
    assert forall i | 0 <= i < |a| :: s[i] == a[i] && a[i] != c;
    assert forall i | 0 <= i < |a'| :: s[i] == a'[i] && a'[i] != c;
    assert a == s[..|a|] == a';
    assert b == s[|a| + 1..] == b';
  }

  /** Likewise at the last separator. */
  lemma LastCutUnique(a: string, b: string, a': string, b': string, c: char)
    requires a + [c] + b == a' + [c] + b'
    requires c !in b && c !in b'
    ensures a == a' && b == b'
  {
    var s := a + [c] + b;
    assert s[|a|] == c && s[|a'|] == c;
    assert forall i | |a| < i < |s| :: s[i] == b[i - |a| - 1] && s[i] != c;
    assert forall i | |a'| < i < |s| :: s[i] == b'[i - |a'| - 1] && s[i] != c;
    assert a == s[..|a|] == a';
    assert b == s[|a| + 1..] == b';
  }

  lemma {:induction false} SplitJoin(fields: seq<string>, sep: char)
    requires fields != [] && forall f | f in fields :: sep !in f
    ensures Split(Join(fields, sep), sep) == fields
  {
    if |fields| > 1 {
      var s := Join(fields, sep);
      var i := IndexOf(s, sep);
      assert s[..i] + [sep] + s[i + 1..] == s;
      FirstCutUnique(s[..i], s[i + 1..], fields[0], Join(fields[1..], sep), sep);
      SplitJoin(fields[1..], sep);
    }
  }

  // ---- decimal rendering (strconv.Itoa) ----

  function Digits(n: nat): (s: string)
    ensures s != [] && forall i | 0 <= i < |s| :: '0' <= s[i] <= '9'
  {
    var last := [((n % 10) + ('0' as int)) as char];
    if n < 10 then last else Digits(n / 10) + last
  }

  function Itoa(i: int): string {
    if i < 0 then "-" + Digits(-i) else Digits(i)
  }

  function Value(s: string): int {
    if s == [] then 0 else 10 * Value(s[..|s| - 1]) + (s[|s| - 1] as int - '0' as int)
  }

  lemma {:induction false} DigitsValue(n: nat)
    ensures Value(Digits(n)) == n
  {
    var s := Digits(n);
    if n >= 10 {
      DigitsValue(n / 10);
      assert s[..|s| - 1] == Digits(n / 10);
    } else {
      assert s[..|s| - 1] == [];
    }
  }

  lemma ItoaInjective(i: int, j: int)
    requires Itoa(i) == Itoa(j)
    ensures i == j
  {
    if i < 0 {
      assert Itoa(i)[0] == '-' && Itoa(i)[1..] == Digits(-i);
    } else {
      assert Itoa(i)[0] == Digits(i)[0];
    }
    if j < 0 {
      assert Itoa(j)[0] == '-' && Itoa(j)[1..] == Digits(-j);
    } else {
      assert Itoa(j)[0] == Digits(j)[0];
    }
    DigitsValue(if i < 0 then -i else i);
    DigitsValue(if j < 0 then -j else j);
  }

  lemma ItoaChars(i: int)
    ensures ':' !in Itoa(i) && NUL !in Itoa(i)
  {
  }
}
