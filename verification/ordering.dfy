/** Byte-wise string order, sort.Strings and sorted key lists. */
module Ordering {
  predicate LE(a: string, b: string) {
    a == [] || (b != [] && (a[0] < b[0] || (a[0] == b[0] && LE(a[1..], b[1..]))))
  }

  /** The strings agree before i, where a has the smaller byte. */
  predicate LessAt(a: string, b: string, i: nat) {
    i < |a| && i < |b| && a[i] < b[i] && forall k | 0 <= k < i :: a[k] == b[k]
  }

  lemma LessAtTail(a: string, b: string, i: nat)
    requires a != [] && b != [] && i > 0
    ensures LessAt(a, b, i) <==> a[0] == b[0] && LessAt(a[1..], b[1..], i - 1)
  {
    if LessAt(a[1..], b[1..], i - 1) && a[0] == b[0] {
      forall k | 0 <= k < i ensures a[k] == b[k] {
        if k > 0 { assert a[1..][k - 1] == b[1..][k - 1]; }
      }
    }
  }

  /** By the first byte that differs; a prefix comes first. */
  lemma {:induction false} LEMeans(a: string, b: string)
    ensures LE(a, b) <==> a <= b || exists i: nat :: LessAt(a, b, i)
  {
    if a != [] && b != [] {
      var p, q := a[1..], b[1..];
      LEMeans(p, q);
      assert a == [a[0]] + p && b == [b[0]] + q;
      assert a <= b <==> a[0] == b[0] && p <= q;
      assert LessAt(a, b, 0) <==> a[0] < b[0];
      if exists i: nat :: LessAt(a, b, i) {
        var i: nat :| LessAt(a, b, i);
        if i > 0 { LessAtTail(a, b, i); }
      }
      if a[0] == b[0] && exists i: nat :: LessAt(p, q, i) {
        var i: nat :| LessAt(p, q, i);
        LessAtTail(a, b, i + 1);
        assert LessAt(a, b, i + 1);
      }
    }
  }

  lemma {:induction false} Total(a: string, b: string)
    ensures LE(a, b) || LE(b, a)
    ensures LE(a, b) && LE(b, a) ==> a == b
  {
    if a != [] && b != [] {
      Total(a[1..], b[1..]);
      assert a == [a[0]] + a[1..] && b == [b[0]] + b[1..];
    }
  }

  lemma {:induction false} Transitive(a: string, b: string, c: string)
    requires LE(a, b) && LE(b, c)
    ensures LE(a, c)
  {
    if a != [] && b != [] && c != [] && a[0] == b[0] == c[0] {
      Transitive(a[1..], b[1..], c[1..]);
    }
  }

  predicate Sorted(s: seq<string>) {
    forall i | 0 <= i < |s| - 1 :: LE(s[i], s[i + 1])
  }

  function Insert(x: string, s: seq<string>): seq<string> {
    if s == [] || LE(x, s[0]) then [x] + s else [s[0]] + Insert(x, s[1..])
  }

  /** sort.Strings. */
  function Sort(s: seq<string>): seq<string> {
    if s == [] then [] else Insert(s[0], Sort(s[1..]))
  }

  lemma {:induction false} InsertSorts(x: string, s: seq<string>)
    requires Sorted(s)
    ensures Sorted(Insert(x, s))
    ensures Insert(x, s)[0] == x || (s != [] && Insert(x, s)[0] == s[0])
  {
    if s != [] && !LE(x, s[0]) {
      Total(x, s[0]);
      InsertSorts(x, s[1..]);
    }
  }

  lemma {:induction false} InsertAdds(x: string, s: seq<string>)
    ensures multiset(Insert(x, s)) == multiset(s) + multiset{x}
  {
    hide LE;
    if s != [] && !LE(x, s[0]) {
      InsertAdds(x, s[1..]);
      assert s == [s[0]] + s[1..];
    }
  }

  lemma {:induction false} SortSorts(s: seq<string>)
    ensures Sorted(Sort(s))
    ensures multiset(Sort(s)) == multiset(s)
    ensures |Sort(s)| == |s|
  {
    if s != [] {
      SortSorts(s[1..]);
      InsertSorts(s[0], Sort(s[1..]));
      InsertAdds(s[0], Sort(s[1..]));
      assert s == [s[0]] + s[1..];
      assert |Sort(s)| == |multiset(Sort(s))| == |multiset(s)|;
    }
  }

  lemma {:induction false} SortKeepsSorted(s: seq<string>)
    requires Sorted(s)
    ensures Sort(s) == s
  {
    if s != [] {
      assert Sorted(s[1..]);
      SortKeepsSorted(s[1..]);
      assert |s| > 1 ==> LE(s[0], s[1]);
      assert s == [s[0]] + s[1..];
    }
  }

  function Elements<T>(s: seq<T>): set<T> {
    set x | x in s
  }

  predicate Distinct<T(==)>(s: seq<T>) {
    forall i, j | 0 <= i < j < |s| :: s[i] != s[j]
  }

  lemma {:induction false} HeadIsLeast(s: seq<string>, i: nat)
    requires Sorted(s) && i < |s|
    ensures LE(s[0], s[i])
  {
    if i == 0 {
      Total(s[0], s[0]);
    } else {
      HeadIsLeast(s, i - 1);
      Transitive(s[0], s[i - 1], s[i]);
    }
  }

  /** A set of strings has one sorted listing without repetition. */
  lemma {:induction false} ListingUnique(a: seq<string>, b: seq<string>)
    requires Sorted(a) && Sorted(b) && Distinct(a) && Distinct(b)
    requires Elements(a) == Elements(b)
    ensures a == b
  {
    assert b != [] ==> b[0] in Elements(b);
    if a != [] {
      assert a[0] in Elements(b) && b != [];
      assert b[0] in Elements(a);
      var i :| 0 <= i < |a| && a[i] == b[0];
      var j :| 0 <= j < |b| && b[j] == a[0];
      HeadIsLeast(a, i);
      HeadIsLeast(b, j);
      Total(a[0], b[0]);
      TailElements(a);
      TailElements(b);
      ListingUnique(a[1..], b[1..]);
    }
  }

  lemma TailElements(s: seq<string>)
    requires s != [] && Distinct(s)
    ensures Elements(s[1..]) == Elements(s) - {s[0]}
    ensures Distinct(s[1..])
    ensures Sorted(s) ==> Sorted(s[1..])
  {
    assert forall i | 0 <= i < |s| - 1 :: s[1..][i] == s[i + 1];
    forall x | x in Elements(s) - {s[0]} ensures x in Elements(s[1..]) {
      var i :| 0 <= i < |s| && s[i] == x;
      assert s[1..][i - 1] == x;
    }
  }

  lemma SortListing(s: seq<string>)
    requires Distinct(s)
    ensures Sorted(Sort(s)) && Distinct(Sort(s)) && Elements(Sort(s)) == Elements(s)
  {
    SortSorts(s);
    var t := Sort(s);
    forall x ensures x in t <==> x in s { assert x in multiset(t) <==> x in multiset(s); }
    DistinctCounts(s);
    forall i, j | 0 <= i < j < |t| ensures t[i] != t[j] {
      if t[i] == t[j] {
        Repeated(t, i, j);
      }
    }
  }

  lemma Repeated(t: seq<string>, i: nat, j: nat)
    requires i < j < |t| && t[i] == t[j]
    ensures multiset(t)[t[i]] >= 2
  {
    assert t == t[..j] + [t[j]] + t[j + 1..];
    assert t[i] in t[..j];
    assert multiset(t) == multiset(t[..j]) + multiset{t[j]} + multiset(t[j + 1..]);
  }

  lemma {:induction false} DistinctCounts(s: seq<string>)
    requires Distinct(s)
    ensures forall x :: multiset(s)[x] <= 1
  {
    if s != [] {
      DistinctCounts(s[1..]);
      assert s == [s[0]] + s[1..];
      assert s[0] !in s[1..];
    }
  }

  /** The sorted listing of a finite set. */
  ghost function Listing(keys: set<string>): (s: seq<string>)
    ensures Sorted(s) && Distinct(s) && Elements(s) == keys
  {
    if keys == {} then []
    else
      var x :| x in keys;
      var rest := Listing(keys - {x});
      assert x !in rest by { assert x !in Elements(rest); }
      InsertListing(x, rest);
      Insert(x, rest)
  }

  lemma InsertListing(x: string, s: seq<string>)
    requires Sorted(s) && Distinct(s) && x !in s
    ensures Sorted(Insert(x, s)) && Distinct(Insert(x, s)) && Elements(Insert(x, s)) == Elements(s) + {x}
  {
    SortKeepsSorted(s);
    var t := [x] + s;
    assert t[1..] == s && Distinct(t);
    assert Sort(t) == Insert(x, s);
    SortListing(t);
    assert Elements(t) == Elements(s) + {x};
  }

  /** sortedKeys: collect in any order, then sort. */
  method SortedKeys(keys: set<string>) returns (s: seq<string>)
    ensures s == Listing(keys)
  {
    s := [];
    var todo := keys;
    while todo != {}
      invariant todo <= keys && Distinct(s) && Elements(s) == keys - todo
      decreases |todo|
    {
      var x :| x in todo;
      assert x !in s by { assert x !in Elements(s); }
      assert Elements(s + [x]) == Elements(s) + {x};
      s := s + [x];
      todo := todo - {x};
    }
    SortListing(s);
    s := Sort(s);
    ListingUnique(s, Listing(keys));
  }
}
