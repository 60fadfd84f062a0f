/** The log buffer entry by entry: which entries a pruning keeps, which a clearing
    leaves and which a page shows. */
module LogMeaning {
  import opened Sequences
  import opened StreamLogs

  /** Logged no longer ago than the stream's retention, 60 seconds unless configured. */
  predicate Young(cfg: Config, e: Entry, now: int) {
    var seconds := if e.streamID in cfg && cfg[e.streamID] > 0 then cfg[e.streamID] else 60;
    now - e.time <= seconds * 1_000_000_000
  }

  /** The places of a stream's young entries. */
  function YoungAt(cfg: Config, log: seq<Entry>, id: string, now: int): set<nat> {
    set k: nat | k < |log| && log[k].streamID == id && Young(cfg, log[k], now)
  }

  lemma YoungAtLast(cfg: Config, front: seq<Entry>, e: Entry, id: string, now: int)
    ensures |YoungAt(cfg, front + [e], id, now)| ==
            |YoungAt(cfg, front, id, now)| + if e.streamID == id && Young(cfg, e, now) then 1 else 0
  {
    hide Young;
    var log, n := front + [e], |front|;
    var before, after := YoungAt(cfg, front, id, now), YoungAt(cfg, log, id, now);
    forall k: nat ensures k in after <==> k in before || (k == n && e.streamID == id && Young(cfg, e, now)) {
      if k < n { assert log[k] == front[k]; }
    }
    assert n !in before;
    if e.streamID == id && Young(cfg, e, now) {
      assert after == before + {n};
    } else {
      assert after == before;
    }
  }

  lemma {:induction false} YoungCount(cfg: Config, log: seq<Entry>, id: string, now: int)
    ensures FreshCount(cfg, log, id, now) == |YoungAt(cfg, log, id, now)|
  {
    hide Young, FreshCount, YoungAt;
    if log == [] {
      NoneYoung(cfg, id, now);
    } else {
      var n := |log| - 1;
      YoungCount(cfg, log[..n], id, now);
      assert log == log[..n] + [log[n]];
      CountAppend(cfg, log[..n], [log[n]], id, now);
      OneEntry(cfg, log[n], id, now);
      YoungAtLast(cfg, log[..n], log[n], id, now);
    }
  }

  lemma NoneYoung(cfg: Config, id: string, now: int)
    ensures FreshCount(cfg, [], id, now) == 0 && YoungAt(cfg, [], id, now) == {}
  {
  }

  lemma OneEntry(cfg: Config, e: Entry, id: string, now: int)
    ensures FreshCount(cfg, [e], id, now) == if e.streamID == id && Young(cfg, e, now) then 1 else 0
  {
    assert [e][1..] == [];
  }

  /** The entry belongs to no stream, or is young and has fewer than 500 young ones of its
      stream after it. */
  predicate Stays(cfg: Config, log: seq<Entry>, i: nat, now: int)
    requires i < |log|
  {
    log[i].streamID == "" || (Young(cfg, log[i], now) && |YoungAt(cfg, log[i + 1..], log[i].streamID, now)| < 500)
  }

  lemma StaysInTail(cfg: Config, log: seq<Entry>, i: nat, now: int)
    requires 0 < i < |log|
    ensures Stays(cfg, log, i, now) <==> Stays(cfg, log[1..], i - 1, now)
  {
    hide Young, YoungAt;
    assert log[1..][i - 1] == log[i] && log[1..][i..] == log[i + 1..];
  }

  /** A pruning keeps exactly those entries, each once and in order. */
  lemma {:induction false} KeptExactly(cfg: Config, log: seq<Entry>, now: int) returns (at: seq<nat>)
    ensures Picked(log, at, Prune(cfg, log, now))
    ensures forall i: nat | i < |log| :: (i in at <==> Stays(cfg, log, i, now))
  {
    at := [];
    if log != [] {
      var rest := KeptExactly(cfg, log[1..], now);
      PickedTail(log, rest, Prune(cfg, log[1..], now));
      YoungCount(cfg, log[1..], log[0].streamID, now);
      assert Keeps(cfg, log[0], log[1..], now) <==> Stays(cfg, log, 0, now);
      at := if Keeps(cfg, log[0], log[1..], now) then [0] + Shifted(rest) else Shifted(rest);
      KeptTail(cfg, log, now);
      hide Picked, Stays, Keeps, Prune, Shifted;
      forall i: nat | i < |log| ensures i in at <==> Stays(cfg, log, i, now) {
        if i > 0 { StaysInTail(cfg, log, i, now); }
      }
    }
  }

  lemma KeptTail(cfg: Config, log: seq<Entry>, now: int)
    requires log != []
    ensures Prune(cfg, log, now) == if Keeps(cfg, log[0], log[1..], now) then [log[0]] + Prune(cfg, log[1..], now) else Prune(cfg, log[1..], now)
  {
    hide Keeps;
  }

  /** A stream's entries are all of its own, in order; a clearing leaves all others. */
  lemma {:induction false} OwnExactly(log: seq<Entry>, id: string) returns (own: seq<nat>, others: seq<nat>)
    ensures Picked(log, own, Of(log, id)) && forall i: nat | i < |log| :: (i in own <==> log[i].streamID == id)
    ensures id == "" ==> Others(log, id) == []
    ensures id != "" ==> Picked(log, others, Others(log, id)) && forall i: nat | i < |log| :: (i in others <==> log[i].streamID != id)
  {
    own, others := [], [];
    if log != [] {
      var o, x := OwnExactly(log[1..], id);
      PickedTail(log, o, Of(log[1..], id));
      if id != "" { PickedTail(log, x, Others(log[1..], id)); }
      own := if log[0].streamID == id then [0] + Shifted(o) else Shifted(o);
      others := if log[0].streamID == id then Shifted(x) else [0] + Shifted(x);
      OwnTail(log, id);
      hide Picked, Of, Others, Shifted, Ascending;
      assert forall i: nat | 0 < i < |log| :: log[i] == log[1..][i - 1];
    }
  }

  lemma OwnTail(log: seq<Entry>, id: string)
    requires log != []
    ensures Of(log, id) == if log[0].streamID == id then [log[0]] + Of(log[1..], id) else Of(log[1..], id)
    ensures id != "" ==> Others(log, id) == if log[0].streamID == id then Others(log[1..], id) else [log[0]] + Others(log[1..], id)
  {
  }

  /** A page shows the latest entries of the stream, or of all streams, oldest first: as
      many as asked for, and 200 if none or more than 500 are. */
  lemma PageExactly(log: seq<Entry>, id: string, limit: int)
    ensures var all := if id == "" then log else Of(log, id);
            var page := Last(Selected(log, id), PageSize(limit));
            var most := if 1 <= limit <= 500 then limit else 200;
            && |page| == (if |all| < most then |all| else most)
            && all == all[..|all| - |page|] + page
  {
  }
}
