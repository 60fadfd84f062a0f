/** The MPEG-TS continuity tracker: per-PID continuity counters of transport packets
    (section 2.4.3.3 of ISO/IEC 13818-1). Unlike the standard, the code counts a
    permitted duplicate packet as an error. */
module Continuity {
  import opened Wrappers
  import opened Sequences

  type Bytes = seq<bv8>

  const PACKET_SIZE: nat := 188
  const PIDS: nat := 8192

  /** What one packet means to the tracker. */
  datatype Kind = Malformed | Silent | Payload(pid: nat, counter: bv8, discontinuity: bool)

  /** The 13-bit PID of the second and third byte. */
  function Pid(high: bv8, low: bv8): (pid: nat)
    ensures pid < PIDS
  {
    ((((high & 0x1f) as bv16) << 8) | (low as bv16)) as nat
  }

  /** adaptation_field_control and continuity_counter of the fourth byte. */
  function Adaptation(header: bv8): bv8 {
    (header >> 4) & 0x03
  }

  function Counter(header: bv8): (counter: bv8)
    ensures counter < 16
  {
    header & 0x0f
  }

  /** discontinuity_indicator of the adaptation field's flags. */
  predicate Declares(flags: bv8) {
    flags & 0x80 != 0
  }

  function Classify(packet: Bytes): (kind: Kind)
    requires |packet| == PACKET_SIZE
    ensures WellFormed(kind)
  {
    var pid, adaptation := Pid(packet[1], packet[2]), Adaptation(packet[3]);
    if packet[0] != 0x47 then Malformed
    else if pid == 0x1fff then Silent
    else if adaptation == 0 then Malformed
    else if adaptation != 1 && adaptation != 3 then Silent
    else Payload(pid, Counter(packet[3]), adaptation == 3 && packet[4] > 0 && packet[4] as int + 5 <= PACKET_SIZE && Declares(packet[5]))
  }

  predicate WellFormed(kind: Kind) {
    kind.Payload? ==> kind.pid < PIDS && kind.counter < 16
  }

  function Next(counter: bv8): bv8 {
    (counter + 1) & 0x0f
  }

  type Counters = map<nat, bv8>

  function Known(last: Counters, pid: nat): Option<bv8> {
    if pid in last then Some(last[pid]) else None
  }

  /** 1 if a payload packet does not continue its PID. */
  function Gap(previous: Option<bv8>, kind: Kind): nat
    requires kind.Payload?
  {
    if previous.Some? && !kind.discontinuity && kind.counter != Next(previous.value) then 1 else 0
  }

  function Track(last: Counters, kind: Kind): (Counters, nat) {
    match kind
    case Malformed => (last, 1)
    case Silent => (last, 0)
    case Payload(pid, counter, _) => (last[pid := counter], Gap(Known(last, pid), kind))
  }

  function TrackAll(last: Counters, kinds: seq<Kind>): (Counters, nat)
    decreases |kinds|
  {
    if kinds == [] then (last, 0)
    else
      var (next, e) := Track(last, kinds[0]);
      var (end, es) := TrackAll(next, kinds[1..]);
      (end, e + es)
  }

  function Kinds(data: Bytes): seq<Kind> {
    if |data| < PACKET_SIZE then [] else [Classify(data[..PACKET_SIZE])] + Kinds(data[PACKET_SIZE..])
  }

  /** What observe does to the counters, and the errors it returns. */
  function Observed(last: Counters, data: Bytes): (Counters, nat) {
    var (next, errors) := TrackAll(last, Kinds(data));
    (next, errors + if |data| % PACKET_SIZE != 0 then 1 else 0)
  }

  lemma NextPacket(last: Counters, data: Bytes)
    requires |data| >= PACKET_SIZE
    ensures var (next, e) := Track(last, Classify(data[..PACKET_SIZE]));
            var (end, es) := TrackAll(next, Kinds(data[PACKET_SIZE..]));
            TrackAll(last, Kinds(data)) == (end, e + es)
  {
    hide Classify, Track;
    assert Kinds(data)[1..] == Kinds(data[PACKET_SIZE..]);
  }

  lemma NoPacket(last: Counters, data: Bytes)
    requires |data| < PACKET_SIZE
    ensures TrackAll(last, Kinds(data)) == (last, 0)
  {
  }

  class Tracker {
    var last: Counters

    constructor ()
      ensures last == map[]
    {
      last := map[];
    }

    method Observe(data: Bytes) returns (errors: nat)
      modifies this
      ensures (last, errors) == Observed(old(last), data)
    {
      hide Classify, Track, TrackAll, Kinds;
      errors := 0;
      if |data| % PACKET_SIZE != 0 {
        errors := errors + 1;
      }
      ghost var start := errors;
      var offset := 0;
      assert data[0..] == data;
      while offset + PACKET_SIZE <= |data|
        invariant offset <= |data| && start <= errors
        invariant var (end, rest) := TrackAll(last, Kinds(data[offset..]));
                  (end, errors - start + rest) == TrackAll(old(last), Kinds(data))
      {
        var packet := data[offset..offset + PACKET_SIZE];
        DropDrop(data, offset, PACKET_SIZE);
        NextPacket(last, data[offset..]);
        var e := ObservePacket(packet);
        errors := errors + e;
        offset := offset + PACKET_SIZE;
      }
      NoPacket(last, data[offset..]);
    }

    /** The body of the packet loop. */
    method ObservePacket(packet: Bytes) returns (errors: nat)
      requires |packet| == PACKET_SIZE
      modifies this
      ensures (last, errors) == Track(old(last), Classify(packet))
    {
      hide Pid, Adaptation, Counter, Declares, Next;
      if packet[0] != 0x47 {
        return 1;
      }
      var pid := Pid(packet[1], packet[2]);
      if pid == 0x1fff {
        return 0;
      }
      var adaptation := Adaptation(packet[3]);
      if adaptation == 0 {
        return 1;
      }
      var hasPayload := adaptation == 1 || adaptation == 3;
      if !hasPayload {
        return 0;
      }
      var discontinuity := false;
      if adaptation == 3 && packet[4] > 0 && packet[4] as int + 5 <= |packet| {
        discontinuity := Declares(packet[5]);
      }
      assert Classify(packet) == Payload(pid, Counter(packet[3]), discontinuity);
      hide Classify;
      errors := Continue(pid, Counter(packet[3]), discontinuity);
    }

    /** A payload packet's counter against the last one of its PID. */
    method Continue(pid: nat, counter: bv8, discontinuity: bool) returns (errors: nat)
      modifies this
      ensures (last, errors) == Track(old(last), Payload(pid, counter, discontinuity))
    {
      hide Next;
      errors := 0;
      if pid in last && !discontinuity && counter != Next(last[pid]) {
        errors := 1;
      }
      last := last[pid := counter];
    }
  }

  // ---- the header in numbers ----

  lemma AdaptationNumber(h: bv8)
    ensures Adaptation(h) as int == h as int / 16 % 4
  {
  }

  lemma CounterNumber(h: bv8)
    ensures Counter(h) as int == h as int % 16
  {
  }

  lemma PidNumber(high: bv8, low: bv8)
    ensures Pid(high, low) == high as int % 32 * 256 + low as int
  {
  }

  lemma TopBit(flags: bv8)
    ensures Declares(flags) <==> flags as int >= 128
  {
  }

  lemma NextNumber(counter: bv8)
    ensures Next(counter) as int == (counter as int + 1) % 16
  {
  }

  lemma SameNumber(a: bv8, b: bv8)
    ensures a == b <==> a as int == b as int
  {
  }

  /** One packet by its octets: a bad sync byte or an adaptation field control of 0 is an
      error; PID 8191 and packets without payload are passed over; a payload packet sets its
      PID's counter, and is an error exactly if the PID is known, no discontinuity is
      declared, and the counter is not the next one modulo 16. */
  lemma {:induction false} PacketInNumbers(last: Counters, packet: Bytes)
    requires |packet| == 188
    ensures var pid := packet[1] as int % 32 * 256 + packet[2] as int;
            var control := packet[3] as int / 16 % 4;
            var declared := control == 3 && 0 < packet[4] as int <= 183 && packet[5] as int >= 128;
            var (next, errors) := Observed(last, packet);
            if packet[0] as int != 71 || (pid != 8191 && control == 0) then (next, errors) == (last, 1)
            else if pid == 8191 || control == 2 then (next, errors) == (last, 0)
            else
              && next.Keys == last.Keys + {pid} && next[pid] as int == packet[3] as int % 16
              && (forall other | other in last && other != pid :: next[other] == last[other])
              && errors == (if pid in last && !declared && packet[3] as int % 16 != (last[pid] as int + 1) % 16 then 1 else 0)
  {
    OnePacket(last, packet);
    AdaptationNumber(packet[3]);
    CounterNumber(packet[3]);
    PidNumber(packet[1], packet[2]);
    TopBit(packet[5]);
    var pid := Pid(packet[1], packet[2]);
    if pid in last {
      NextNumber(last[pid]);
      SameNumber(Counter(packet[3]), Next(last[pid]));
    }
    hide Observed, Kinds, TrackAll, Pid, Adaptation, Counter, Declares, Next;
  }

  lemma OnePacket(last: Counters, packet: Bytes)
    requires |packet| == 188
    ensures Observed(last, packet) == Track(last, Classify(packet))
  {
    hide Classify, Track;
    NextPacket(last, packet);
    assert packet[..188] == packet;
  }

  // ---- additivity ----

  lemma {:induction false} TrackAppend(last: Counters, a: seq<Kind>, b: seq<Kind>)
    ensures var (mid, e) := TrackAll(last, a);
            var (end, e') := TrackAll(mid, b);
            TrackAll(last, a + b) == (end, e + e')
    decreases |a|
  {
    if a == [] {
      assert a + b == b;
    } else {
      TrackAppend(Track(last, a[0]).0, a[1..], b);
      assert (a + b)[1..] == a[1..] + b;
    }
  }

  lemma {:induction false} KindsAppend(a: Bytes, b: Bytes)
    requires |a| % PACKET_SIZE == 0
    ensures Kinds(a + b) == Kinds(a) + Kinds(b)
  {
    if |a| < PACKET_SIZE {
      assert a + b == b;
    } else {
      hide Classify;
      KindsAppend(a[PACKET_SIZE..], b);
      CutAppend(a, b, PACKET_SIZE);
      Assoc([Classify(a[..PACKET_SIZE])], Kinds(a[PACKET_SIZE..]), Kinds(b));
    }
  }

  /** Observing two aligned stretches one after the other is observing them at once. */
  lemma ObserveAdditive(last: Counters, a: Bytes, b: Bytes)
    requires |a| % PACKET_SIZE == 0
    ensures var (mid, e) := Observed(last, a);
            var (end, e') := Observed(mid, b);
            Observed(last, a + b) == (end, e + e')
  {
    KindsAppend(a, b);
    TrackAppend(last, Kinds(a), Kinds(b));
    assert |a + b| % PACKET_SIZE == |b| % PACKET_SIZE;
  }

  // ---- decomposition by PID ----

  function MalformedCount(kinds: seq<Kind>): nat {
    if kinds == [] then 0 else (if kinds[0].Malformed? then 1 else 0) + MalformedCount(kinds[1..])
  }

  predicate On(kind: Kind, pid: nat) {
    kind.Payload? && kind.pid == pid
  }

  /** The payload packets of one PID, in order. */
  function OfPid(kinds: seq<Kind>, pid: nat): (s: seq<Kind>)
    ensures forall i | 0 <= i < |s| :: On(s[i], pid)
  {
    if kinds == [] then []
    else if On(kinds[0], pid) then [kinds[0]] + OfPid(kinds[1..], pid)
    else OfPid(kinds[1..], pid)
  }

  function PidErrors(previous: Option<bv8>, own: seq<Kind>): nat
    requires forall i | 0 <= i < |own| :: own[i].Payload?
    decreases |own|
  {
    if own == [] then 0 else Gap(previous, own[0]) + PidErrors(Some(own[0].counter), own[1..])
  }

  function PidEnd(previous: Option<bv8>, own: seq<Kind>): Option<bv8>
    requires forall i | 0 <= i < |own| :: own[i].Payload?
  {
    if own == [] then previous else Some(own[|own| - 1].counter)
  }

  function ErrorsAt(last: Counters, kinds: seq<Kind>): nat -> nat {
    pid => PidErrors(Known(last, pid), OfPid(kinds, pid))
  }

  function Sum(f: nat -> nat, n: nat): nat {
    if n == 0 then 0 else Sum(f, n - 1) + f(n - 1)
  }

  lemma {:induction false} SumDiffersAt(f: nat -> nat, g: nat -> nat, n: nat, at: nat)
    requires forall i: nat | i != at :: f(i) == g(i)
    ensures at < n ==> Sum(f, n) + g(at) == Sum(g, n) + f(at)
    ensures at >= n ==> Sum(f, n) == Sum(g, n)
  {
    if n > 0 { SumDiffersAt(f, g, n - 1, at); }
  }

  lemma {:induction false} SumZero(f: nat -> nat, n: nat)
    requires Sum(f, n) == 0
    ensures forall i: nat | i < n :: f(i) == 0
  {
    if n > 0 { SumZero(f, n - 1); }
  }

  lemma {:induction false} SumNone(f: nat -> nat, n: nat)
    requires forall i: nat :: f(i) == 0
    ensures Sum(f, n) == 0
  {
    if n > 0 { SumNone(f, n - 1); }
  }

  predicate AllWellFormed(kinds: seq<Kind>) {
    forall i | 0 <= i < |kinds| :: WellFormed(kinds[i])
  }

  lemma FirstKind(last: Counters, kinds: seq<Kind>, pid: nat)
    requires kinds != []
    ensures var f, g := ErrorsAt(last, kinds), ErrorsAt(Track(last, kinds[0]).0, kinds[1..]);
            f(pid) == g(pid) + if On(kinds[0], pid) then Track(last, kinds[0]).1 else 0
  {
    if On(kinds[0], pid) {
      assert OfPid(kinds, pid)[1..] == OfPid(kinds[1..], pid);
    }
  }

  /** The errors are the malformed packets plus, for every PID, the gaps in that PID's
      own packets; and each PID's counter ends where its own packets leave it. */
  lemma {:induction false} DecomposedByPid(last: Counters, kinds: seq<Kind>)
    requires AllWellFormed(kinds)
    ensures TrackAll(last, kinds).1 == MalformedCount(kinds) + Sum(ErrorsAt(last, kinds), PIDS)
    ensures forall pid: nat :: Known(TrackAll(last, kinds).0, pid) == PidEnd(Known(last, pid), OfPid(kinds, pid))
    decreases |kinds|
  {
    if kinds == [] {
      SumNone(ErrorsAt(last, kinds), PIDS);
    } else {
      var kind, rest := kinds[0], kinds[1..];
      var (next, e) := Track(last, kind);
      DecomposedByPid(next, rest);
      forall pid: nat
        ensures Known(TrackAll(last, kinds).0, pid) == PidEnd(Known(last, pid), OfPid(kinds, pid))
      {
        FirstKindEnd(last, kinds, pid);
      }
      FirstKindSum(last, kinds);
    }
  }

  lemma FirstKindSum(last: Counters, kinds: seq<Kind>)
    requires kinds != [] && WellFormed(kinds[0])
    ensures var (next, e) := Track(last, kinds[0]);
            Sum(ErrorsAt(last, kinds), PIDS) ==
            Sum(ErrorsAt(next, kinds[1..]), PIDS) + if kinds[0].Payload? then e else 0
  {
    var kind, next := kinds[0], Track(last, kinds[0]).0;
    forall pid: nat { FirstKind(last, kinds, pid); }
    hide Track, ErrorsAt, PidErrors, OfPid;
    SumDiffersAt(ErrorsAt(last, kinds), ErrorsAt(next, kinds[1..]), PIDS, if kind.Payload? then kind.pid else 0);
  }

  lemma FirstKindEnd(last: Counters, kinds: seq<Kind>, pid: nat)
    requires kinds != []
    ensures var next := Track(last, kinds[0]).0;
            PidEnd(Known(last, pid), OfPid(kinds, pid)) == PidEnd(Known(next, pid), OfPid(kinds[1..], pid))
  {
  }

  lemma {:induction false} KindsWellFormed(data: Bytes)
    ensures AllWellFormed(Kinds(data))
  {
    if |data| >= PACKET_SIZE { KindsWellFormed(data[PACKET_SIZE..]); }
  }

  /** The same for bytes. */
  lemma {:induction false} ObserveDecomposes(last: Counters, data: Bytes)
    requires |data| % PACKET_SIZE == 0
    ensures var (end, errors) := Observed(last, data);
            && errors == MalformedCount(Kinds(data)) + Sum(ErrorsAt(last, Kinds(data)), PIDS)
            && forall pid: nat :: Known(end, pid) == PidEnd(Known(last, pid), OfPid(Kinds(data), pid))
  {
    KindsWellFormed(data);
    DecomposedByPid(last, Kinds(data));
  }

  // ---- losing packets ----

  function Nth(counter: bv8, n: nat): bv8 {
    if n == 0 then counter else Next(Nth(counter, n - 1))
  }

  lemma NextFacts(c: bv8, o: bv8)
    requires c < 16 && o < 16
    ensures Next(o) < 16 && (c + o) & 0x0f < 16
    ensures Next((c + o) & 0x0f) == (c + Next(o)) & 0x0f
    ensures (c + o) & 0x0f == c <==> o == 0
    ensures Next(o) as int == (o as int + 1) % 16
    ensures Next(c) == Next(o) <==> c == o
  {
  }

  lemma {:induction false} NthFromZero(n: nat)
    ensures Nth(0, n) < 16 && Nth(0, n) as int == n % 16
  {
    hide Next;
    if n > 0 {
      NthFromZero(n - 1);
      NextFacts(0, Nth(0, n - 1));
      ModNext(n - 1);
    }
  }

  lemma ModNext(n: nat)
    ensures (n % 16 + 1) % 16 == (n + 1) % 16
  {
  }

  lemma {:induction false} NthShifts(counter: bv8, n: nat)
    requires counter < 16
    ensures Nth(counter, n) == (counter + Nth(0, n)) & 0x0f
  {
    hide Next;
    NthFromZero(n);
    NextFacts(counter, 0);
    if n > 0 {
      NthShifts(counter, n - 1);
      NthFromZero(n - 1);
      NextFacts(counter, Nth(0, n - 1));
    }
  }

  /** The 4-bit counter returns to its value exactly after multiples of 16. */
  lemma NthReturns(counter: bv8, n: nat)
    requires counter < 16
    ensures Nth(counter, n) < 16
    ensures Nth(counter, n) == counter <==> n % 16 == 0
  {
    NthFromZero(n);
    NthShifts(counter, n);
    NextFacts(counter, Nth(0, n));
  }

  lemma {:induction false} PidErrorsAppend(previous: Option<bv8>, a: seq<Kind>, b: seq<Kind>)
    requires forall i | 0 <= i < |a| :: a[i].Payload?
    requires forall i | 0 <= i < |b| :: b[i].Payload?
    ensures PidErrors(previous, a + b) == PidErrors(previous, a) + PidErrors(PidEnd(previous, a), b)
    decreases |a|
  {
    if a == [] {
      assert a + b == b;
    } else {
      PidErrorsAppend(Some(a[0].counter), a[1..], b);
      assert (a + b)[1..] == a[1..] + b;
    }
  }

  /** Packets of one PID without gaps or declared discontinuities count up. */
  lemma {:induction false} UnbrokenCountsUp(previous: bv8, own: seq<Kind>)
    requires forall i | 0 <= i < |own| :: own[i].Payload? && !own[i].discontinuity
    requires PidErrors(Some(previous), own) == 0
    ensures PidEnd(Some(previous), own) == Some(Nth(previous, |own|))
  {
    if own != [] {
      var front, last := own[..|own| - 1], own[|own| - 1];
      assert own == front + [last];
      PidErrorsAppend(Some(previous), front, [last]);
      UnbrokenCountsUp(previous, front);
    }
  }

  lemma {:induction false} OfPidAppend(a: seq<Kind>, b: seq<Kind>, pid: nat)
    ensures OfPid(a + b, pid) == OfPid(a, pid) + OfPid(b, pid)
    ensures MalformedCount(a + b) == MalformedCount(a) + MalformedCount(b)
  {
    if a == [] {
      assert a + b == b;
    } else {
      OfPidAppend(a[1..], b, pid);
      assert (a + b)[1..] == a[1..] + b;
    }
  }

  function Without(kinds: seq<Kind>, pid: nat): seq<Kind> {
    if kinds == [] then []
    else if On(kinds[0], pid) then Without(kinds[1..], pid)
    else [kinds[0]] + Without(kinds[1..], pid)
  }

  lemma {:induction false} WithoutOnly(kinds: seq<Kind>, pid: nat, other: nat)
    requires AllWellFormed(kinds)
    ensures OfPid(Without(kinds, pid), other) == if other == pid then [] else OfPid(kinds, other)
    ensures MalformedCount(Without(kinds, pid)) == MalformedCount(kinds)
    ensures AllWellFormed(Without(kinds, pid))
  {
    if kinds != [] {
      WithoutOnly(kinds[1..], pid, other);
      var rest := Without(kinds[1..], pid);
      if !On(kinds[0], pid) {
        assert ([kinds[0]] + rest)[1..] == rest;
      }
    }
  }

  predicate Plain(own: seq<Kind>) {
    forall i | 0 <= i < |own| :: own[i].Payload? && !own[i].discontinuity && own[i].counter < 16
  }

  /** One PID's own packets around a loss: an error exactly if the counter was known, a
      packet follows, and the loss is no multiple of 16. */
  lemma {:induction false} OwnLoss(previous: Option<bv8>, before: seq<Kind>, lost: seq<Kind>, after: seq<Kind>)
    requires previous.Some? ==> previous.value < 16
    requires forall i | 0 <= i < |before| :: before[i].Payload? && before[i].counter < 16
    requires forall i | 0 <= i < |after| :: after[i].Payload? && after[i].counter < 16
    requires Plain(lost) && (after != [] ==> !after[0].discontinuity)
    requires PidErrors(previous, before + lost + after) == 0
    ensures PidErrors(previous, before + after) ==
            if PidEnd(previous, before).None? || after == [] || |lost| % 16 == 0 then 0 else 1
  {
    PidErrorsAppend(previous, before + lost, after);
    PidErrorsAppend(previous, before, lost);
    PidErrorsAppend(previous, before, after);
    var known := PidEnd(previous, before);
    if known.Some? && after != [] {
      var x := known.value;
      PidEndAppend(previous, before, lost);
      UnbrokenCountsUp(x, lost);
      NthReturns(x, |lost|);
      NextFacts(x, Nth(x, |lost|));
    }
  }

  lemma PidEndAppend(previous: Option<bv8>, a: seq<Kind>, b: seq<Kind>)
    requires forall i | 0 <= i < |a| :: a[i].Payload?
    requires forall i | 0 <= i < |b| :: b[i].Payload?
    ensures PidEnd(previous, a + b) == PidEnd(PidEnd(previous, a), b)
  {
  }

  lemma SplitOfPid(a: seq<Kind>, b: seq<Kind>, c: seq<Kind>, pid: nat)
    ensures OfPid(a + b + c, pid) == OfPid(a, pid) + OfPid(b, pid) + OfPid(c, pid)
    ensures MalformedCount(a + b + c) == MalformedCount(a) + MalformedCount(b) + MalformedCount(c)
  {
    OfPidAppend(a + b, c, pid);
    OfPidAppend(a, b, pid);
  }

  predicate Undeclared(kinds: seq<Kind>, pid: nat) {
    forall i | 0 <= i < |kinds| :: On(kinds[i], pid) ==> !kinds[i].discontinuity
  }

  lemma {:induction false} OfPidFacts(kinds: seq<Kind>, pid: nat)
    requires AllWellFormed(kinds)
    ensures forall i | 0 <= i < |OfPid(kinds, pid)| :: OfPid(kinds, pid)[i].Payload? && OfPid(kinds, pid)[i].counter < 16
    ensures Undeclared(kinds, pid) ==> Plain(OfPid(kinds, pid))
  {
    if kinds != [] {
      OfPidFacts(kinds[1..], pid);
    }
  }

  lemma OthersUnchanged(a: seq<Kind>, b: seq<Kind>, c: seq<Kind>, pid: nat, other: nat)
    requires AllWellFormed(b)
    ensures var whole, damaged := a + b + c, a + Without(b, pid) + c;
            && MalformedCount(damaged) == MalformedCount(whole)
            && (other != pid ==> OfPid(damaged, other) == OfPid(whole, other))
            && OfPid(damaged, pid) == OfPid(a, pid) + OfPid(c, pid)
  {
    WithoutOnly(b, pid, other);
    WithoutOnly(b, pid, pid);
    SplitOfPid(a, b, c, other);
    SplitOfPid(a, Without(b, pid), c, other);
    SplitOfPid(a, Without(b, pid), c, pid);
    assert OfPid(a, pid) + [] + OfPid(c, pid) == OfPid(a, pid) + OfPid(c, pid);
  }

  lemma OtherPidsUnchanged(a: seq<Kind>, b: seq<Kind>, c: seq<Kind>, pid: nat)
    requires AllWellFormed(b)
    ensures MalformedCount(a + Without(b, pid) + c) == MalformedCount(a + b + c)
    ensures forall other: nat | other != pid :: OfPid(a + Without(b, pid) + c, other) == OfPid(a + b + c, other)
  {
    hide OfPid, Without, MalformedCount, AllWellFormed;
    OthersUnchanged(a, b, c, pid, pid);
    forall other: nat | other != pid ensures OfPid(a + Without(b, pid) + c, other) == OfPid(a + b + c, other) {
      OthersUnchanged(a, b, c, pid, other);
    }
  }

  /** If an error-free stream is changed on one PID only, the errors are that PID's. */
  lemma OnlyOnePidDiffers(last: Counters, whole: seq<Kind>, damaged: seq<Kind>, pid: nat)
    requires AllWellFormed(whole) && AllWellFormed(damaged) && pid < PIDS
    requires TrackAll(last, whole).1 == 0 && MalformedCount(damaged) == MalformedCount(whole)
    requires forall other: nat | other != pid :: OfPid(damaged, other) == OfPid(whole, other)
    ensures PidErrors(Known(last, pid), OfPid(whole, pid)) == 0
    ensures TrackAll(last, damaged).1 == PidErrors(Known(last, pid), OfPid(damaged, pid))
  {
    hide TrackAll, OfPid, MalformedCount, PidErrors;
    DecomposedByPid(last, whole);
    DecomposedByPid(last, damaged);
    var f, g := ErrorsAt(last, whole), ErrorsAt(last, damaged);
    SumZero(f, PIDS);
    assert f(pid) == 0;
    SumDiffersAt(f, g, PIDS, pid);
  }

  lemma WellFormedAppend(a: seq<Kind>, b: seq<Kind>, c: seq<Kind>)
    requires AllWellFormed(a) && AllWellFormed(b) && AllWellFormed(c)
    ensures AllWellFormed(a + b + c)
  {
  }

  /** No packet of b, and not the next one, declares a discontinuity of the PID. */
  predicate QuietAround(b: seq<Kind>, c: seq<Kind>, pid: nat) {
    Undeclared(b, pid) && (OfPid(c, pid) != [] ==> !OfPid(c, pid)[0].discontinuity)
  }

  function LossErrors(known: Option<bv8>, b: seq<Kind>, c: seq<Kind>, pid: nat): nat {
    if known.None? || OfPid(c, pid) == [] || |OfPid(b, pid)| % 16 == 0 then 0 else 1
  }

  lemma {:induction false} LossOnPid(previous: Option<bv8>, a: seq<Kind>, b: seq<Kind>, c: seq<Kind>, pid: nat)
    requires previous.Some? ==> previous.value < 16
    requires AllWellFormed(a) && AllWellFormed(b) && AllWellFormed(c) && QuietAround(b, c, pid)
    requires PidErrors(previous, OfPid(a + b + c, pid)) == 0
    ensures PidErrors(previous, OfPid(a + Without(b, pid) + c, pid)) == LossErrors(PidEnd(previous, OfPid(a, pid)), b, c, pid)
  {
    OthersUnchanged(a, b, c, pid, pid);
    SplitOfPid(a, b, c, pid);
    OfPidFacts(a, pid);
    OfPidFacts(b, pid);
    OfPidFacts(c, pid);
    hide OfPid, Without, PidErrors, MalformedCount;
    OwnLoss(previous, OfPid(a, pid), OfPid(b, pid), OfPid(c, pid));
  }

  lemma KindsLoss(last: Counters, a: seq<Kind>, b: seq<Kind>, c: seq<Kind>, pid: nat)
    requires pid < PIDS && (pid in last ==> last[pid] < 16)
    requires AllWellFormed(a) && AllWellFormed(b) && AllWellFormed(c) && QuietAround(b, c, pid)
    requires TrackAll(last, a + b + c).1 == 0
    ensures TrackAll(last, a + Without(b, pid) + c).1 == LossErrors(Known(TrackAll(last, a).0, pid), b, c, pid)
  {
    hide TrackAll, OfPid, Without, MalformedCount, PidErrors, AllWellFormed, QuietAround;
    WithoutOnly(b, pid, pid);
    WellFormedAppend(a, b, c);
    WellFormedAppend(a, Without(b, pid), c);
    OtherPidsUnchanged(a, b, c, pid);
    OnlyOnePidDiffers(last, a + b + c, a + Without(b, pid) + c, pid);
    LossOnPid(Known(last, pid), a, b, c, pid);
    DecomposedByPid(last, a);
  }

  /** The bytes without the payload packets of one PID. */
  function Drop(data: Bytes, pid: nat): Bytes {
    if |data| < PACKET_SIZE then data
    else (if On(Classify(data[..PACKET_SIZE]), pid) then [] else data[..PACKET_SIZE]) + Drop(data[PACKET_SIZE..], pid)
  }

  lemma {:induction false} DropIsWithout(data: Bytes, pid: nat)
    ensures Kinds(Drop(data, pid)) == Without(Kinds(data), pid)
    ensures |Drop(data, pid)| % PACKET_SIZE == |data| % PACKET_SIZE
  {
    hide Classify, On;
    if |data| >= PACKET_SIZE {
      var head, tail := data[..PACKET_SIZE], data[PACKET_SIZE..];
      DropIsWithout(tail, pid);
      assert Kinds(data)[1..] == Kinds(tail);
      if On(Classify(head), pid) {
        assert [] + Drop(tail, pid) == Drop(tail, pid);
      } else {
        CutAppend(head, Drop(tail, pid), PACKET_SIZE);
        assert head[PACKET_SIZE..] + Drop(tail, pid) == Drop(tail, pid);
        assert head[..PACKET_SIZE] == head;
      }
    }
  }

  /** Whatever the tracker has seen before: if aligned a, b and c go by without an error,
      then losing all payload packets of one PID from b costs exactly one error if the
      PID's counter was known by then, a payload packet of it follows, and the number
      lost is no multiple of 16; otherwise none. */
  lemma {:induction false} LossCost(last: Counters, a: Bytes, b: Bytes, c: Bytes, pid: nat)
    requires |a| % PACKET_SIZE == |b| % PACKET_SIZE == |c| % PACKET_SIZE == 0
    requires pid < PIDS && (pid in last ==> last[pid] < 16)
    requires QuietAround(Kinds(b), Kinds(c), pid)
    requires Observed(last, a + b + c).1 == 0
    ensures Observed(last, a + Drop(b, pid) + c).1 == LossErrors(Known(Observed(last, a).0, pid), Kinds(b), Kinds(c), pid)
  {
    hide TrackAll, QuietAround, Kinds, Drop, Without, LossErrors;
    DropIsWithout(b, pid);
    Concatenated(a, b, c);
    Concatenated(a, Drop(b, pid), c);
    KindsWellFormed(a);
    KindsWellFormed(b);
    KindsWellFormed(c);
    KindsLoss(last, Kinds(a), Kinds(b), Kinds(c), pid);
  }

  lemma Concatenated(a: Bytes, b: Bytes, c: Bytes)
    requires |a| % PACKET_SIZE == |b| % PACKET_SIZE == |c| % PACKET_SIZE == 0
    ensures Kinds(a + b + c) == Kinds(a) + Kinds(b) + Kinds(c) && |a + b + c| % PACKET_SIZE == 0
  {
    hide Kinds;
    KindsAppend(a, b);
    KindsAppend(a + b, c);
  }

  // ---- duplicates ----

  /** A payload packet sent twice in a row, without declaring a discontinuity, costs
      exactly one error, which the standard would not have it cost, and changes nothing
      afterwards. */
  lemma DuplicateCost(last: Counters, a: Bytes, packet: Bytes, c: Bytes)
    requires |a| % PACKET_SIZE == 0 && |packet| == PACKET_SIZE
    requires Classify(packet).Payload? && !Classify(packet).discontinuity
    ensures var (end, errors) := Observed(last, a + packet + c);
            Observed(last, a + packet + packet + c) == (end, errors + 1)
  {
    hide Classify, Kinds, TrackAll;
    var mid := Observed(last, a).0;
    Repeated(mid, packet);
    ObserveAdditive(last, a, packet);
    ObserveAdditive(last, a + packet, c);
    ObserveAdditive(last, a + packet, packet);
    ObserveAdditive(last, a + packet + packet, c);
  }

  lemma Repeated(last: Counters, packet: Bytes)
    requires |packet| == PACKET_SIZE && Classify(packet).Payload? && !Classify(packet).discontinuity
    ensures var once := Observed(last, packet).0; Observed(once, packet) == (once, 1)
  {
    hide Classify;
    var kind, once := Classify(packet), Track(last, Classify(packet)).0;
    assert packet[..PACKET_SIZE] == packet && packet[PACKET_SIZE..] == [];
    NextPacket(last, packet);
    NextPacket(once, packet);
    NextFacts(kind.counter, kind.counter) by { assert WellFormed(kind); }
    assert once[kind.pid := kind.counter] == once;
  }
}
