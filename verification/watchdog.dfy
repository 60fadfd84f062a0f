/** The process watchdog: one decision per sample, driven by the monitoring loop. */
module Watchdog {
  import opened Wrappers

  /** Timeouts in seconds; times are in nanoseconds. */
  datatype Policy = Policy(enabled: bool, progressTimeout: int, maxMemory: int, memoryGrace: int)

  const SECOND: int := 1_000_000_000

  /** One tick: the memory in use, and when ffmpeg last reported progress, if it has. */
  datatype Sample = Sample(now: int, memory: int, progressAt: Option<int>)

  datatype Reason = NoProgress | Memory

  datatype Decision = Decision(reason: Option<Reason>, exceededSince: Option<int>)

  /** watchdogAction. */
  function Action(policy: Policy, startedAt: int, since: Option<int>, s: Sample): Decision {
    if !policy.enabled then Decision(None, since)
    else if s.now - (if s.progressAt.Some? then s.progressAt.value else startedAt) > policy.progressTimeout * SECOND
      then Decision(Some(NoProgress), since)
    else if policy.maxMemory <= 0 || s.memory <= policy.maxMemory then Decision(None, None)
    else if since.None? then Decision(None, Some(s.now))
    else if s.now - since.value >= policy.memoryGrace * SECOND then Decision(Some(Memory), since)
    else Decision(None, since)
  }

  // ---- when a process should be killed ----

  predicate Overdue(policy: Policy, startedAt: int, s: Sample) {
    s.now - (if s.progressAt.Some? then s.progressAt.value else startedAt) > policy.progressTimeout * 1_000_000_000
  }

  predicate Exceeds(policy: Policy, s: Sample) {
    policy.maxMemory > 0 && s.memory > policy.maxMemory
  }

  /** All samples from j to n exceed the limit. */
  predicate ExceedsFrom(policy: Policy, samples: seq<Sample>, j: nat, n: nat)
    requires n < |samples|
  {
    forall k | j <= k <= n :: Exceeds(policy, samples[k])
  }

  /** The memory limit has been exceeded without a break for at least the grace time. */
  predicate MemoryDue(policy: Policy, samples: seq<Sample>, n: nat)
    requires n < |samples|
  {
    exists j | 0 <= j < n ::
      ExceedsFrom(policy, samples, j, n) && samples[n].now - samples[j].now >= policy.memoryGrace * 1_000_000_000
  }

  function Verdict(policy: Policy, startedAt: int, samples: seq<Sample>, n: nat): Option<Reason>
    requires n < |samples|
  {
    if !policy.enabled then None
    else if Overdue(policy, startedAt, samples[n]) then Some(NoProgress)
    else if MemoryDue(policy, samples, n) then Some(Memory)
    else None
  }

  predicate Timed(samples: seq<Sample>) {
    forall i, j | 0 <= i < j < |samples| :: samples[i].now <= samples[j].now
  }

  // ---- the loop's memory ----

  /** Where the current stretch of exceeding samples began; n if there is none. */
  function StretchStart(policy: Policy, samples: seq<Sample>, n: nat): (j: nat)
    requires n <= |samples|
    ensures j <= n
    ensures forall k | j <= k < n :: Exceeds(policy, samples[k])
    ensures j > 0 ==> !Exceeds(policy, samples[j - 1])
  {
    if n == 0 || !Exceeds(policy, samples[n - 1]) then n else StretchStart(policy, samples, n - 1)
  }

  /** While no sample has killed, the loop remembers the start of the stretch. */
  function Since(policy: Policy, samples: seq<Sample>, n: nat): Option<int>
    requires n <= |samples|
  {
    var j := StretchStart(policy, samples, n);
    if j == n || !policy.enabled then None else Some(samples[j].now)
  }

  /** On a process that no earlier sample killed, a sample kills for memory exactly if
      progress is not overdue and every sample from some earlier one on exceeded the
      limit, the grace time having passed since; one sample at or below the limit
      restarts the clock. */
  lemma ActionIsVerdict(policy: Policy, startedAt: int, samples: seq<Sample>, n: nat)
    requires n < |samples| && Timed(samples)
    ensures var d := Action(policy, startedAt, Since(policy, samples, n), samples[n]);
            && d.reason == Verdict(policy, startedAt, samples, n)
            && (d.reason == None ==> d.exceededSince == Since(policy, samples, n + 1))
  {
    var j := StretchStart(policy, samples, n);
    if policy.enabled && Exceeds(policy, samples[n]) {
      assert StretchStart(policy, samples, n + 1) == j;
      if j < n && samples[n].now - samples[j].now >= policy.memoryGrace * 1_000_000_000 {
        assert ExceedsFrom(policy, samples, j, n);
        assert MemoryDue(policy, samples, n);
      } else {
        forall i | 0 <= i < n && ExceedsFrom(policy, samples, i, n)
          ensures samples[n].now - samples[i].now < policy.memoryGrace * 1_000_000_000
        {
        }
      }
    }
  }

  lemma NoStretch(policy: Policy, samples: seq<Sample>)
    ensures Since(policy, samples, 0) == None
  {
  }

  /** monitorProcess: the sample that kills, if any, and why; it is the first one whose
      verdict is to kill. */
  method Monitor(policy: Policy, startedAt: int, samples: seq<Sample>) returns (killed: Option<nat>, reason: Option<Reason>)
    requires Timed(samples)
    ensures killed.Some? ==> killed.value < |samples| && reason.Some? && reason == Verdict(policy, startedAt, samples, killed.value)
    ensures forall k | 0 <= k < (if killed.Some? then killed.value else |samples|) :: Verdict(policy, startedAt, samples, k) == None
  {
    hide Since, Action, Verdict, Timed;
    var exceededSince: Option<int> := None;
    assert Since(policy, samples, 0) == None by { NoStretch(policy, samples); }
    for n := 0 to |samples|
      invariant exceededSince == Since(policy, samples, n)
      invariant forall k | 0 <= k < n :: Verdict(policy, startedAt, samples, k) == None
    {
      ActionIsVerdict(policy, startedAt, samples, n);
      var action := Action(policy, startedAt, exceededSince, samples[n]);
      exceededSince := action.exceededSince;
      if action.reason.Some? {
        return Some(n), action.reason;
      }
    }
    return None, None;
  }
}
