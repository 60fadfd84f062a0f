/** The two process supervisors: the SRT relay manager and the stream job manager. One
    event is one critical section, so events of different calls interleave freely. */
module Supervision {
  import opened Wrappers
  import FixedWindow

  datatype Kind = Relays | Streams

  /** Restart budget: the window's length and its number of restarts. */
  datatype Policy = Policy(period: nat, limit: nat)

  /** The constants of the relay manager, in nanoseconds. */
  const RELAY_POLICY: Policy := Policy(5 * 60 * 1_000_000_000, 5)

  datatype Job = Job(process: nat, stopping: bool)

  /** What `wait` has still to decide; `noted` once it has written the status. */
  datatype Wait = Wait(id: string, stopping: bool, failed: bool, noted: bool)

  /** Steps still to come, in the order in which one call goes through them. `Backoff` writes
      a status and sets the timer `Restart`; `Again` is the decision after an automatic start
      that failed. `Flap` writes the status "flapping" and sets the timer `Retry`, which
      tests that status; `Reset` is its lock, `Renew` its write, `Relaunch` its start. `Tell`
      is the write that follows a start or a stop. */
  datatype Task =
    | Backoff(id: string) | Restart(id: string) | Again(id: string)
    | Flap(id: string) | Retry(id: string) | Reset(id: string) | Renew(id: string) | Relaunch(id: string)
    | Tell(id: string)

  /** `jobs` and `restarts` are the maps under the lock. Processes are numbered in the
      order of their start: `owners` gives each its ID, `exited` those already waited
      for, `closed` how often each one's done channel was closed. `flapping` are the IDs
      whose status is "flapping". `marked` are the processes an operator stopped, `revived`
      those whose exit scheduled another start, and `hits` the restart decisions per ID
      since its tracker was last deleted. */
  datatype System = System(
    jobs: map<string, Job>, restarts: map<string, FixedWindow.Window>,
    owners: seq<string>, exited: set<nat>, closed: seq<nat>,
    deciding: map<nat, Wait>, pending: multiset<Task>, flapping: set<string>,
    marked: set<nat>, revived: set<nat>, hits: map<string, seq<int>>)

  const INITIAL: System := System(map[], map[], [], {}, [], map[], multiset{}, {}, {}, {}, map[])

  function Tracker(restarts: map<string, FixedWindow.Window>, id: string): Option<FixedWindow.Window> {
    if id in restarts then Some(restarts[id]) else None
  }

  function HitsOf(hits: map<string, seq<int>>, id: string): seq<int> {
    if id in hits then hits[id] else []
  }

  datatype Event =
    | Start(id: string, spawns: bool)                   // an operator's start
    | Stop(id: string)
    | Exit(process: nat, failed: bool)                  // wait, under the lock
    | Note(process: nat)                                // wait writes the status
    | Settle(process: nat, enabled: bool, now: int)     // wait decides
    | Delay(id: string)                                 // the backoff begins
    | Fire(id: string, enabled: bool, spawns: bool)     // the backoff is over
    | Decide(id: string, enabled: bool, now: int)       // an automatic start failed
    | Flag(id: string)                                  // "flapping" is written
    | Unflap(id: string, enabled: bool)                 // retryFlapping tests the status
    | Clear(id: string)                                 // ... deletes the tracker
    | Renewed(id: string)                               // ... writes "restarting"
    | Resume(id: string, spawns: bool)                  // ... starts
    | Told(id: string)                                  // "starting" or "stopping" is written
    | Report(id: string)                                // any other status comes in

  /** start, under the lock: the new state, and whether it succeeded. */
  function Launch(sys: System, id: string, restarted: bool, spawns: bool): (System, bool) {
    if id in sys.jobs || !spawns then (sys, false)
    else
      (sys.(jobs := sys.jobs[id := Job(|sys.owners|, false)],
            owners := sys.owners + [id], closed := sys.closed + [0],
            restarts := if restarted then sys.restarts else sys.restarts - {id},
            hits := if restarted then sys.hits else sys.hits - {id},
            pending := sys.pending + multiset{Tell(id)}), true)
  }

  /** allowRestart and maybeRestart: count the attempt and go on to what follows. */
  function Tally(kind: Kind, policy: Policy, sys: System, id: string, now: int): System {
    var w := FixedWindow.Hit(Tracker(sys.restarts, id), now, policy.period);
    sys.(restarts := sys.restarts[id := w],
         hits := sys.hits[id := HitsOf(sys.hits, id) + [now]],
         pending := sys.pending + if w.count <= policy.limit then multiset{Backoff(id)}
                                  else if kind == Relays then multiset{Flap(id)}
                                  else multiset{})
  }

  function StopStep(sys: System, id: string): System {
    if id !in sys.jobs then sys
    else sys.(jobs := sys.jobs[id := sys.jobs[id].(stopping := true)],
              restarts := sys.restarts - {id}, hits := sys.hits - {id},
              marked := sys.marked + {sys.jobs[id].process},
              pending := sys.pending + multiset{Tell(id)})
  }

  function ExitStep(kind: Kind, sys: System, process: nat, failed: bool): System {
    if process >= |sys.owners| || process in sys.exited then sys
    else
      var id := sys.owners[process];
      var current := id in sys.jobs && sys.jobs[id].process == process;
      var gone := sys.(exited := sys.exited + {process}, jobs := if current then sys.jobs - {id} else sys.jobs);
      if kind == Relays && !current then gone
      else
        // The job manager closes the channel of whatever job it finds.
        var found := id in sys.jobs;
        var closing := if kind == Streams && found then sys.jobs[id].process else |sys.closed|;
        gone.(closed := if closing < |sys.closed| then sys.closed[closing := sys.closed[closing] + 1] else sys.closed,
              deciding := sys.deciding[process := Wait(id, found && sys.jobs[id].stopping, failed, false)])
  }

  function NoteStep(sys: System, process: nat): System {
    if process !in sys.deciding then sys
    else
      var w := sys.deciding[process];
      sys.(deciding := sys.deciding[process := w.(noted := true)], flapping := sys.flapping - {w.id})
  }

  function SettleStep(kind: Kind, policies: string -> Policy, sys: System, process: nat, enabled: bool, now: int): System {
    if process !in sys.deciding || !sys.deciding[process].noted then sys
    else
      var w := sys.deciding[process];
      var settled := sys.(deciding := sys.deciding - {process});
      if w.stopping || (kind == Streams && !w.failed) || !enabled then settled
      else
        var counted := Tally(kind, policies(w.id), settled, w.id, now);
        if counted.pending == settled.pending then counted else counted.(revived := sys.revived + {process})
  }

  function Take(sys: System, task: Task): System {
    sys.(pending := sys.pending - multiset{task})
  }

  /** A task is done, others follow, and a status was written. */
  function Move(sys: System, task: Task, next: multiset<Task>, flapping: set<string>): System {
    if task !in sys.pending then sys
    else sys.(pending := sys.pending - multiset{task} + next, flapping := flapping)
  }

  /** retryFlapping under the lock. */
  function ClearStep(sys: System, id: string): System {
    if Reset(id) !in sys.pending then sys
    else
      var reset := Take(sys, Reset(id)).(restarts := sys.restarts - {id}, hits := sys.hits - {id});
      if id in sys.jobs then reset else reset.(pending := reset.pending + multiset{Renew(id)})
  }

  /** The events that only write a status, and set or test a timer. */
  function StatusStep(sys: System, e: Event): System {
    match e
    case Delay(id) => Move(sys, Backoff(id), multiset{Restart(id)}, sys.flapping - {id})
    case Flag(id) => Move(sys, Flap(id), multiset{Retry(id)}, sys.flapping + {id})
    case Unflap(id, enabled) =>
      Move(sys, Retry(id), if enabled && id in sys.flapping then multiset{Reset(id)} else multiset{}, sys.flapping)
    case Renewed(id) => Move(sys, Renew(id), multiset{Relaunch(id)}, sys.flapping - {id})
    case Told(id) => Move(sys, Tell(id), multiset{}, sys.flapping - {id})
    case Report(id) => sys.(flapping := sys.flapping - {id})
    case _ => sys
  }

  function Step(kind: Kind, policies: string -> Policy, sys: System, e: Event): System {
    match e
    case Start(id, spawns) => Launch(sys, id, false, spawns).0
    case Stop(id) => StopStep(sys, id)
    case Exit(process, failed) => ExitStep(kind, sys, process, failed)
    case Note(process) => NoteStep(sys, process)
    case Settle(process, enabled, now) => SettleStep(kind, policies, sys, process, enabled, now)
    case Fire(id, enabled, spawns) =>
      if Restart(id) !in sys.pending then sys
      else if !enabled then Take(sys, Restart(id))
      else
        var (sys', ok) := Launch(Take(sys, Restart(id)), id, true, spawns);
        if ok || kind == Relays then sys' else sys'.(pending := sys'.pending + multiset{Again(id)})
    case Decide(id, enabled, now) =>
      if Again(id) !in sys.pending then sys
      else if !enabled then Take(sys, Again(id))
      else Tally(kind, policies(id), Take(sys, Again(id)), id, now)
    case Clear(id) => ClearStep(sys, id)
    case Resume(id, spawns) =>
      if Relaunch(id) !in sys.pending then sys
      else
        var (sys', ok) := Launch(Take(sys, Relaunch(id)), id, true, spawns);
        if ok then sys' else sys'.(pending := sys'.pending + multiset{Flap(id)})
    case _ => StatusStep(sys, e)
  }

  function Run(kind: Kind, policies: string -> Policy, events: seq<Event>): System {
    if events == [] then INITIAL
    else Step(kind, policies, Run(kind, policies, events[..|events| - 1]), events[|events| - 1])
  }

  // ---- the invariant ----

  /** The jobs are exactly the processes started and not yet waited for. */
  ghost predicate OnePerID(sys: System) {
    && (forall id | id in sys.jobs ::
          var p := sys.jobs[id].process;
          p < |sys.owners| && p !in sys.exited && sys.owners[p] == id)
    && (forall p | 0 <= p < |sys.owners| && p !in sys.exited ::
          sys.owners[p] in sys.jobs && sys.jobs[sys.owners[p]].process == p)
    && (forall p | p in sys.exited :: p < |sys.owners|)
  }

  ghost predicate ClosedOnce(kind: Kind, sys: System) {
    && |sys.closed| == |sys.owners|
    && (kind == Streams ==> forall p | 0 <= p < |sys.closed| :: sys.closed[p] == if p in sys.exited then 1 else 0)
  }

  ghost predicate MarksKept(sys: System) {
    && (forall id | id in sys.jobs :: sys.jobs[id].stopping <==> sys.jobs[id].process in sys.marked)
    && (forall p | p in sys.marked :: p < |sys.owners|)
    && (forall p | p in sys.deciding :: p in sys.exited && (sys.deciding[p].stopping <==> p in sys.marked))
    && (forall p | p in sys.revived :: p in sys.exited && p !in sys.marked)
  }

  ghost predicate Tracked(policies: string -> Policy, sys: System) {
    forall id :: Tracker(sys.restarts, id) == FixedWindow.Current(HitsOf(sys.hits, id), policies(id).period)
  }

  ghost predicate Inv(kind: Kind, policies: string -> Policy, sys: System) {
    OnePerID(sys) && ClosedOnce(kind, sys) && MarksKept(sys) && Tracked(policies, sys)
  }

  lemma LaunchKeeps(kind: Kind, policies: string -> Policy, sys: System, id: string, restarted: bool, spawns: bool)
    requires Inv(kind, policies, sys)
    ensures Inv(kind, policies, Launch(sys, id, restarted, spawns).0)
  {
    hide FixedWindow.Current;
    assert FixedWindow.Current([], policies(id).period) == None by { NoHits(policies(id).period); }
  }

  lemma NoHits(period: nat)
    ensures FixedWindow.Current([], period) == None
  {
  }

  lemma PendingKeeps(kind: Kind, policies: string -> Policy, sys: System, pending: multiset<Task>, flapping: set<string>)
    requires Inv(kind, policies, sys)
    ensures Inv(kind, policies, sys.(pending := pending, flapping := flapping))
    ensures Inv(kind, policies, sys.(pending := pending))
  {
    hide FixedWindow.Current, HitsOf, Tracker;
  }

  lemma MoveKeeps(kind: Kind, policies: string -> Policy, sys: System, task: Task, next: multiset<Task>, flapping: set<string>)
    requires Inv(kind, policies, sys)
    ensures Inv(kind, policies, Move(sys, task, next, flapping))
  {
    hide Inv;
    PendingKeeps(kind, policies, sys, sys.pending - multiset{task} + next, flapping);
  }

  lemma NoteKeeps(kind: Kind, policies: string -> Policy, sys: System, process: nat)
    requires Inv(kind, policies, sys)
    ensures Inv(kind, policies, NoteStep(sys, process))
  {
    hide FixedWindow.Current, HitsOf, Tracker;
  }

  lemma ClearKeeps(kind: Kind, policies: string -> Policy, sys: System, id: string)
    requires Inv(kind, policies, sys)
    ensures Inv(kind, policies, ClearStep(sys, id))
  {
    hide Inv;
    var taken := Take(sys, Reset(id));
    PendingKeeps(kind, policies, sys, taken.pending, {});
    ResetKeeps(kind, policies, taken, id);
    var reset := taken.(restarts := sys.restarts - {id}, hits := sys.hits - {id});
    PendingKeeps(kind, policies, reset, reset.pending + multiset{Renew(id)}, {});
  }

  lemma ResetKeeps(kind: Kind, policies: string -> Policy, sys: System, id: string)
    requires Inv(kind, policies, sys)
    ensures Inv(kind, policies, sys.(restarts := sys.restarts - {id}, hits := sys.hits - {id}))
  {
  }

  lemma CountKeeps(kind: Kind, policies: string -> Policy, sys: System, id: string, now: int)
    requires Inv(kind, policies, sys)
    ensures Inv(kind, policies, Tally(kind, policies(id), sys, id, now))
  {
    var times := HitsOf(sys.hits, id);
    assert (times + [now])[..|times|] == times;
    assert FixedWindow.Current(times + [now], policies(id).period) == Some(FixedWindow.Hit(Tracker(sys.restarts, id), now, policies(id).period));
  }

  lemma StopKeeps(kind: Kind, policies: string -> Policy, sys: System, id: string)
    requires Inv(kind, policies, sys)
    ensures Inv(kind, policies, StopStep(sys, id))
  {
    hide FixedWindow.Current;
    ResetKeeps(kind, policies, sys, id);
  }

  lemma ExitKeeps(kind: Kind, policies: string -> Policy, sys: System, process: nat, failed: bool)
    requires Inv(kind, policies, sys)
    ensures Inv(kind, policies, ExitStep(kind, sys, process, failed))
  {
    hide FixedWindow.Current, HitsOf, Tracker;
  }

  lemma ReviveKeeps(kind: Kind, policies: string -> Policy, sys: System, process: nat)
    requires Inv(kind, policies, sys) && process in sys.exited && process !in sys.marked
    ensures Inv(kind, policies, sys.(revived := sys.revived + {process}))
  {
    hide FixedWindow.Current;
  }

  lemma DecidingFacts(kind: Kind, policies: string -> Policy, sys: System, process: nat)
    requires Inv(kind, policies, sys) && process in sys.deciding
    ensures process in sys.exited && (sys.deciding[process].stopping <==> process in sys.marked)
  {
  }

  lemma TallyKeepsMarks(kind: Kind, policy: Policy, sys: System, id: string, now: int)
    ensures var sys' := Tally(kind, policy, sys, id, now); sys'.exited == sys.exited && sys'.marked == sys.marked && sys'.revived == sys.revived
  {
  }

  lemma SettleKeeps(kind: Kind, policies: string -> Policy, sys: System, process: nat, enabled: bool, now: int)
    requires Inv(kind, policies, sys)
    ensures Inv(kind, policies, SettleStep(kind, policies, sys, process, enabled, now))
  {
    hide Inv, Tally;
    if process in sys.deciding {
      var w := sys.deciding[process];
      var settled := sys.(deciding := sys.deciding - {process});
      DecidingFacts(kind, policies, sys, process);
      WaitDone(kind, policies, sys, process);
      CountKeeps(kind, policies, settled, w.id, now);
      TallyKeepsMarks(kind, policies(w.id), settled, w.id, now);
      if !w.stopping { ReviveKeeps(kind, policies, Tally(kind, policies(w.id), settled, w.id, now), process); }
    }
  }

  lemma RelaunchKeeps(kind: Kind, policies: string -> Policy, sys: System, task: Task, id: string, spawns: bool, next: Task)
    requires Inv(kind, policies, sys)
    ensures var taken := Take(sys, task);
            var sys' := Launch(taken, id, true, spawns).0;
            && Inv(kind, policies, taken) && Inv(kind, policies, sys')
            && Inv(kind, policies, sys'.(pending := sys'.pending + multiset{next}))
  {
    hide Inv, Launch;
    var taken := Take(sys, task);
    PendingKeeps(kind, policies, sys, taken.pending, {});
    LaunchKeeps(kind, policies, taken, id, true, spawns);
    var sys' := Launch(taken, id, true, spawns).0;
    PendingKeeps(kind, policies, sys', sys'.pending + multiset{next}, {});
  }

  lemma StatusKeeps(kind: Kind, policies: string -> Policy, sys: System, e: Event)
    requires Inv(kind, policies, sys)
    ensures Inv(kind, policies, StatusStep(sys, e))
  {
    hide Inv, Move;
    match e {
      case Delay(id) => MoveKeeps(kind, policies, sys, Backoff(id), multiset{Restart(id)}, sys.flapping - {id});
      case Flag(id) => MoveKeeps(kind, policies, sys, Flap(id), multiset{Retry(id)}, sys.flapping + {id});
      case Unflap(id, enabled) =>
        MoveKeeps(kind, policies, sys, Retry(id), if enabled && id in sys.flapping then multiset{Reset(id)} else multiset{}, sys.flapping);
      case Renewed(id) => MoveKeeps(kind, policies, sys, Renew(id), multiset{Relaunch(id)}, sys.flapping - {id});
      case Told(id) => MoveKeeps(kind, policies, sys, Tell(id), multiset{}, sys.flapping - {id});
      case Report(id) => PendingKeeps(kind, policies, sys, sys.pending, sys.flapping - {id});
      case _ =>
    }
  }

  lemma StepKeeps(kind: Kind, policies: string -> Policy, sys: System, e: Event)
    requires Inv(kind, policies, sys)
    ensures Inv(kind, policies, Step(kind, policies, sys, e))
  {
    hide Inv, Launch, Tally, StopStep, ExitStep, SettleStep, NoteStep, ClearStep, StatusStep;
    match e {
      case Start(id, spawns) => LaunchKeeps(kind, policies, sys, id, false, spawns);
      case Stop(id) => StopKeeps(kind, policies, sys, id);
      case Exit(process, failed) => ExitKeeps(kind, policies, sys, process, failed);
      case Note(process) => NoteKeeps(kind, policies, sys, process);
      case Settle(process, enabled, now) => SettleKeeps(kind, policies, sys, process, enabled, now);
      case Fire(id, _, spawns) => RelaunchKeeps(kind, policies, sys, Restart(id), id, spawns, Again(id));
      case Decide(id, _, now) =>
        PendingKeeps(kind, policies, sys, Take(sys, Again(id)).pending, {});
        CountKeeps(kind, policies, Take(sys, Again(id)), id, now);
      case Clear(id) => ClearKeeps(kind, policies, sys, id);
      case Resume(id, spawns) => RelaunchKeeps(kind, policies, sys, Relaunch(id), id, spawns, Flap(id));
      case _ => StatusKeeps(kind, policies, sys, e);
    }
  }

  lemma {:induction false} RunKeeps(kind: Kind, policies: string -> Policy, events: seq<Event>)
    ensures Inv(kind, policies, Run(kind, policies, events))
  {
    if events != [] {
      hide Inv, Step;
      RunKeeps(kind, policies, events[..|events| - 1]);
      StepKeeps(kind, policies, Run(kind, policies, events[..|events| - 1]), events[|events| - 1]);
    }
  }

  /** At every point of every run of either manager: no ID has two processes that were
      started and not waited for; the job table lists exactly the live ones; a stream's
      done channel has been closed once if its process was waited for and never
      otherwise; and no process an operator stopped has had a restart scheduled for it. */
  lemma SupervisionSafety(kind: Kind, policies: string -> Policy, events: seq<Event>)
    ensures var sys := Run(kind, policies, events);
            && (forall p, q | 0 <= p < q < |sys.owners| && p !in sys.exited && q !in sys.exited :: sys.owners[p] != sys.owners[q])
            && (forall id :: id in sys.jobs <==> exists p :: 0 <= p < |sys.owners| && p !in sys.exited && sys.owners[p] == id)
            && |sys.closed| == |sys.owners|
            && (kind == Streams ==> forall p | 0 <= p < |sys.closed| :: sys.closed[p] == if p in sys.exited then 1 else 0)
            && sys.marked !! sys.revived
  {
    RunKeeps(kind, policies, events);
  }

  // ---- restart budgets ----

  /** A decision schedules a restart exactly if its window still grants one. */
  lemma {:induction false} CountGrants(kind: Kind, policies: string -> Policy, events: seq<Event>, id: string, now: int)
    ensures var sys := Run(kind, policies, events);
            var sys' := Tally(kind, policies(id), sys, id, now);
            var times := HitsOf(sys'.hits, id);
            && times == HitsOf(sys.hits, id) + [now]
            && sys'.pending == sys.pending + (
                 if FixedWindow.Granted(times, policies(id).period, policies(id).limit) then multiset{Backoff(id)}
                 else if kind == Relays then multiset{Flap(id)} else multiset{})
  {
    RunKeeps(kind, policies, events);
    var sys := Run(kind, policies, events);
    assert Tracked(policies, sys);
    hide Run, Inv, FixedWindow.Hit;
    var times := HitsOf(sys.hits, id);
    assert (times + [now])[..|times|] == times;
  }

  /** In every run, whatever the times of the decisions: while an ID's tracker is not
      deleted, one window grants at most the budget; and if the decisions come in the order
      of their times, any closed span as long as the window grants at most twice the budget,
      that is 10 restarts in 5 minutes for a relay. */
  lemma {:induction false} RestartBudget(kind: Kind, policies: string -> Policy, events: seq<Event>, id: string, started: int, lo: int)
    ensures var (times, policy) := (HitsOf(Run(kind, policies, events).hits, id), policies(id));
            && Tracker(Run(kind, policies, events).restarts, id) == FixedWindow.Current(times, policy.period)
            && FixedWindow.GrantsOfWindow(times, policy.period, policy.limit, started) <= policy.limit
            && (FixedWindow.Sorted(times) ==>
                  && FixedWindow.GrantsIn(times, policy.period, policy.limit, lo) <= 2 * policy.limit
                  && (policy == RELAY_POLICY ==> FixedWindow.GrantsIn(times, 300_000_000_000, 5, lo) <= 10))
  {
    RunKeeps(kind, policies, events);
    hide Run;
    var times := HitsOf(Run(kind, policies, events).hits, id);
    FixedWindow.WindowBudget(times, policies(id).period, policies(id).limit, started);
    if FixedWindow.Sorted(times) {
      FixedWindow.AtMostTwiceTheLimit(times, policies(id).period, policies(id).limit, lo);
    }
  }

  // ---- when a stop is final ----

  /** Something is under way that can start the ID again without an operator: a task, where
      a flapping timer counts only while the status is "flapping"; or the decision about a
      process that was not stopped, if the budget ever grants. */
  predicate CanRevive(kind: Kind, policy: Policy, sys: System, id: string) {
    || Waiting(sys, id)
    || (Again(id) in sys.pending && (kind == Relays || policy.limit >= 1))
    || exists p | p in sys.deciding :: Undecided(kind, policy, sys.deciding[p], id)
  }

  predicate Waiting(sys: System, id: string) {
    || Backoff(id) in sys.pending || Restart(id) in sys.pending
    || Flap(id) in sys.pending || (Retry(id) in sys.pending && id in sys.flapping)
    || Reset(id) in sys.pending || Renew(id) in sys.pending || Relaunch(id) in sys.pending
  }

  predicate Undecided(kind: Kind, policy: Policy, w: Wait, id: string) {
    w.id == id && !w.stopping && (kind == Relays || (w.failed && policy.limit >= 1))
  }

  /** The processes of an ID that were ever started. */
  function Launches(sys: System, id: string): nat {
    multiset(sys.owners)[id]
  }

  predicate NoStart(events: seq<Event>, id: string) {
    forall i | 0 <= i < |events| :: !(events[i].Start? && events[i].id == id)
  }

  /** What a final stop leaves, until the next start. */
  predicate Halted(kind: Kind, policies: string -> Policy, sys: System, id: string) {
    !CanRevive(kind, policies(id), sys, id) && (id in sys.jobs ==> sys.jobs[id].stopping)
  }

  lemma LaunchesGrow(owners: seq<string>, other: string, id: string)
    ensures multiset(owners + [other])[id] == multiset(owners)[id] + if other == id then 1 else 0
  {
  }

  lemma OtherLaunch(kind: Kind, policies: string -> Policy, sys: System, other: string, restarted: bool, spawns: bool, id: string)
    requires Halted(kind, policies, sys, id) && other != id
    ensures var sys' := Launch(sys, other, restarted, spawns).0;
            Halted(kind, policies, sys', id) && Launches(sys', id) == Launches(sys, id)
  {
    LaunchesGrow(sys.owners, other, id);
  }

  /** A task of another ID, or none. */
  predicate Foreign(tasks: multiset<Task>, id: string) {
    forall t | t in tasks :: t.id != id
  }

  lemma OtherTasks(kind: Kind, policies: string -> Policy, sys: System, gone: multiset<Task>, more: multiset<Task>, flapping: set<string>, id: string)
    requires Halted(kind, policies, sys, id) && Foreign(more, id) && (id in flapping ==> id in sys.flapping)
    ensures Halted(kind, policies, sys.(pending := sys.pending - gone + more, flapping := flapping), id)
    ensures Halted(kind, policies, sys.(pending := sys.pending - gone + more), id)
    ensures Halted(kind, policies, sys.(pending := sys.pending - gone), id)
  {
    hide Undecided;
  }

  lemma HaltedMove(kind: Kind, policies: string -> Policy, sys: System, task: Task, next: multiset<Task>, flapping: set<string>, id: string)
    requires Halted(kind, policies, sys, id) && (id in flapping ==> id in sys.flapping)
    requires task in sys.pending ==> Foreign(next, id)
    ensures var sys' := Move(sys, task, next, flapping); Halted(kind, policies, sys', id) && sys'.owners == sys.owners
  {
    hide Halted;
    if task in sys.pending { OtherTasks(kind, policies, sys, multiset{task}, next, flapping, id); }
  }

  /** Counting for another ID, or for a stream without a budget, schedules nothing for this one. */
  lemma OtherTally(kind: Kind, policies: string -> Policy, sys: System, other: string, now: int, id: string)
    requires Halted(kind, policies, sys, id)
    requires other != id || (kind == Streams && policies(id).limit == 0)
    ensures Halted(kind, policies, Tally(kind, policies(other), sys, other, now), id)
  {
  }

  lemma HaltedExit(kind: Kind, policies: string -> Policy, sys: System, process: nat, failed: bool, id: string)
    requires Inv(kind, policies, sys) && Halted(kind, policies, sys, id)
    ensures Halted(kind, policies, ExitStep(kind, sys, process, failed), id)
    ensures ExitStep(kind, sys, process, failed).owners == sys.owners
  {
  }

  lemma HaltedSettle(kind: Kind, policies: string -> Policy, sys: System, process: nat, enabled: bool, now: int, id: string)
    requires Halted(kind, policies, sys, id)
    ensures Halted(kind, policies, SettleStep(kind, policies, sys, process, enabled, now), id)
    ensures SettleStep(kind, policies, sys, process, enabled, now).owners == sys.owners
  {
    if process in sys.deciding {
      var w := sys.deciding[process];
      var settled := sys.(deciding := sys.deciding - {process});
      assert Halted(kind, policies, settled, id);
      assert !Undecided(kind, policies(id), w, id);
      if !(w.stopping || (kind == Streams && !w.failed) || !enabled) {
        OtherTally(kind, policies, settled, w.id, now, id);
      }
    }
  }

  lemma HaltedStop(kind: Kind, policies: string -> Policy, sys: System, other: string, id: string)
    requires Halted(kind, policies, sys, id)
    ensures var sys' := StopStep(sys, other); Halted(kind, policies, sys', id) && sys'.owners == sys.owners
  {
    hide Undecided;
  }

  lemma HaltedDecide(kind: Kind, policies: string -> Policy, sys: System, other: string, now: int, id: string)
    requires Halted(kind, policies, sys, id) && Again(other) in sys.pending
    ensures var sys' := Take(sys, Again(other));
            && Halted(kind, policies, sys', id)
            && Halted(kind, policies, Tally(kind, policies(other), sys', other, now), id)
            && Tally(kind, policies(other), sys', other, now).owners == sys.owners
  {
    hide Undecided;
    OtherTasks(kind, policies, sys, multiset{Again(other)}, multiset{}, {}, id);
    OtherTally(kind, policies, Take(sys, Again(other)), other, now, id);
  }

  lemma ResetOther(kind: Kind, policies: string -> Policy, sys: System, other: string, id: string)
    requires Halted(kind, policies, sys, id)
    ensures Halted(kind, policies, sys.(restarts := sys.restarts - {other}, hits := sys.hits - {other}), id)
  {
    hide Undecided;
  }

  lemma HaltedClear(kind: Kind, policies: string -> Policy, sys: System, other: string, id: string)
    requires Halted(kind, policies, sys, id)
    ensures var sys' := ClearStep(sys, other); Halted(kind, policies, sys', id) && sys'.owners == sys.owners
  {
    if Reset(other) in sys.pending {
      assert other != id;
      hide Halted;
      ResetOther(kind, policies, sys, other, id);
      var reset := sys.(restarts := sys.restarts - {other}, hits := sys.hits - {other});
      OtherTasks(kind, policies, reset, multiset{Reset(other)}, multiset{Renew(other)}, {}, id);
    }
  }

  lemma HaltedNote(kind: Kind, policies: string -> Policy, sys: System, process: nat, id: string)
    requires Halted(kind, policies, sys, id)
    ensures var sys' := NoteStep(sys, process); Halted(kind, policies, sys', id) && sys'.owners == sys.owners
  {
  }

  /** Which tasks may be pending for a halted ID. */
  lemma HaltedTasks(kind: Kind, policies: string -> Policy, sys: System, id: string)
    requires Halted(kind, policies, sys, id)
    ensures Backoff(id) !in sys.pending && Flap(id) !in sys.pending && Renew(id) !in sys.pending
    ensures Retry(id) in sys.pending ==> id !in sys.flapping
  {
    hide Undecided;
  }

  lemma SameLaunches(sys: System, sys': System, id: string)
    requires sys'.owners == sys.owners
    ensures Launches(sys', id) == Launches(sys, id)
  {
  }

  lemma ForeignOne(task: Task, id: string)
    requires task.id != id
    ensures Foreign(multiset{task}, id)
  {
  }

  lemma ForeignNone(id: string)
    ensures Foreign(multiset{}, id)
  {
  }

  lemma HaltedStatus(kind: Kind, policies: string -> Policy, sys: System, e: Event, id: string)
    requires Halted(kind, policies, sys, id)
    ensures var sys' := StatusStep(sys, e); Halted(kind, policies, sys', id) && sys'.owners == sys.owners
  {
    hide Halted, Move, Foreign;
    HaltedTasks(kind, policies, sys, id);
    ForeignNone(id);
    match e {
      case Delay(other) =>
        if other != id { ForeignOne(Restart(other), id); }
        HaltedMove(kind, policies, sys, Backoff(other), multiset{Restart(other)}, sys.flapping - {other}, id);
      case Flag(other) =>
        if other == id {
          NoMove(sys, Flap(other), multiset{Retry(other)}, sys.flapping + {other});
        } else {
          ForeignOne(Retry(other), id);
          HaltedMove(kind, policies, sys, Flap(other), multiset{Retry(other)}, sys.flapping + {other}, id);
        }
      case Unflap(other, enabled) =>
        var next := if enabled && other in sys.flapping then multiset{Reset(other)} else multiset{};
        if other != id { ForeignOne(Reset(other), id); }
        HaltedMove(kind, policies, sys, Retry(other), next, sys.flapping, id);
      case Renewed(other) =>
        if other != id { ForeignOne(Relaunch(other), id); }
        HaltedMove(kind, policies, sys, Renew(other), multiset{Relaunch(other)}, sys.flapping - {other}, id);
      case Told(other) => HaltedMove(kind, policies, sys, Tell(other), multiset{}, sys.flapping - {other}, id);
      case Report(other) => HaltedReport(kind, policies, sys, other, id);
      case _ =>
    }
  }

  lemma HaltedReport(kind: Kind, policies: string -> Policy, sys: System, other: string, id: string)
    requires Halted(kind, policies, sys, id)
    ensures Halted(kind, policies, sys.(flapping := sys.flapping - {other}), id)
  {
    hide Undecided;
  }

  lemma NoMove(sys: System, task: Task, next: multiset<Task>, flapping: set<string>)
    requires task !in sys.pending
    ensures Move(sys, task, next, flapping) == sys
  {
  }

  lemma HaltedStep(kind: Kind, policies: string -> Policy, sys: System, e: Event, id: string)
    requires Inv(kind, policies, sys) && Halted(kind, policies, sys, id) && !(e.Start? && e.id == id)
    ensures var sys' := Step(kind, policies, sys, e);
            Halted(kind, policies, sys', id) && Launches(sys', id) == Launches(sys, id)
  {
    hide Inv, Launch, Tally, Halted, StopStep, ExitStep, SettleStep, NoteStep, ClearStep, StatusStep, Launches;
    var sys' := Step(kind, policies, sys, e);
    match e {
      case Start(other, spawns) => OtherLaunch(kind, policies, sys, other, false, spawns, id);
      case Stop(other) => HaltedStop(kind, policies, sys, other, id);
      case Exit(process, failed) => HaltedExit(kind, policies, sys, process, failed, id);
      case Note(process) => HaltedNote(kind, policies, sys, process, id);
      case Settle(process, enabled, now) => HaltedSettle(kind, policies, sys, process, enabled, now, id);
      case Fire(other, _, spawns) =>
        if Restart(other) in sys.pending {
          HaltedRelaunch(kind, policies, sys, Restart(other), spawns, Again(other), id);
        }
      case Decide(other, _, now) =>
        if Again(other) in sys.pending { HaltedDecide(kind, policies, sys, other, now, id); }
      case Clear(other) => HaltedClear(kind, policies, sys, other, id);
      case Resume(other, spawns) =>
        if Relaunch(other) in sys.pending {
          HaltedRelaunch(kind, policies, sys, Relaunch(other), spawns, Flap(other), id);
        }
      case _ => HaltedStatus(kind, policies, sys, e, id);
    }
    if sys'.owners == sys.owners { SameLaunches(sys, sys', id); }
  }

  lemma HaltedRelaunch(kind: Kind, policies: string -> Policy, sys: System, task: Task, spawns: bool, next: Task, id: string)
    requires Halted(kind, policies, sys, id) && task in sys.pending && (task.Restart? || task.Relaunch?) && next.id == task.id
    ensures task.id != id
    ensures var sys' := Launch(Take(sys, task), task.id, true, spawns).0;
            && Halted(kind, policies, Take(sys, task), id)
            && Halted(kind, policies, sys', id) && Launches(sys', id) == Launches(sys, id)
            && Halted(kind, policies, sys'.(pending := sys'.pending + multiset{next}), id)
            && Launches(sys'.(pending := sys'.pending + multiset{next}), id) == Launches(sys, id)
            && Launches(Take(sys, task), id) == Launches(sys, id)
  {
    assert task.id != id;
    hide Launch;
    OtherTasks(kind, policies, sys, multiset{task}, multiset{}, {}, id);
    OtherLaunch(kind, policies, Take(sys, task), task.id, true, spawns, id);
    var sys' := Launch(Take(sys, task), task.id, true, spawns).0;
    OtherTasks(kind, policies, sys', multiset{}, multiset{next}, {}, id);
    assert sys'.pending - multiset{} + multiset{next} == sys'.pending + multiset{next};
  }

  lemma RunAppend(kind: Kind, policies: string -> Policy, events: seq<Event>, e: Event)
    ensures Run(kind, policies, events + [e]) == Step(kind, policies, Run(kind, policies, events), e)
  {
    hide Step;
    assert (events + [e])[..|events|] == events;
  }

  lemma {:induction false} HaltedRun(kind: Kind, policies: string -> Policy, events: seq<Event>, more: seq<Event>, id: string)
    requires Halted(kind, policies, Run(kind, policies, events), id) && NoStart(more, id)
    ensures Halted(kind, policies, Run(kind, policies, events + more), id)
    ensures Launches(Run(kind, policies, events + more), id) == Launches(Run(kind, policies, events), id)
    decreases |more|
  {
    hide Halted, Launches, Step, Inv, Run;
    if more == [] {
      assert events + more == events;
    } else {
      var n := |more| - 1;
      HaltedRun(kind, policies, events, more[..n], id);
      assert events + more == (events + more[..n]) + [more[n]];
      RunKeeps(kind, policies, events + more[..n]);
      assert !(more[n].Start? && more[n].id == id);
      HaltedStep(kind, policies, Run(kind, policies, events + more[..n]), more[n], id);
      RunAppend(kind, policies, events + more[..n], more[n]);
    }
  }

  // ---- how an ID comes back ----

  /** A time at which the tracker opens a new window. */
  function NextWindow(sys: System, policy: Policy, id: string): int {
    if id in sys.restarts then sys.restarts[id].started + policy.period + 1 else 0
  }

  lemma RunAppendTwo(kind: Kind, policies: string -> Policy, events: seq<Event>, more: seq<Event>, e: Event)
    ensures Run(kind, policies, events + (more + [e])) == Step(kind, policies, Run(kind, policies, events + more), e)
  {
    hide Run, Step;
    assert events + (more + [e]) == (events + more) + [e];
    RunAppend(kind, policies, events + more, e);
  }

  lemma NoStartMore(more: seq<Event>, e: Event, id: string)
    requires NoStart(more, id) && !e.Start?
    ensures NoStart(more + [e], id)
  {
  }

  lemma FireStarts(kind: Kind, policies: string -> Policy, sys: System, id: string)
    requires Restart(id) in sys.pending && id !in sys.jobs
    ensures var sys' := Step(kind, policies, sys, Fire(id, true, true));
            && sys'.jobs == sys.jobs[id := Job(|sys.owners|, false)] && sys'.owners == sys.owners + [id]
            && sys'.pending == sys.pending - multiset{Restart(id)} + multiset{Tell(id)}
            && sys'.restarts == sys.restarts && sys'.deciding == sys.deciding && sys'.exited == sys.exited
  {
  }

  lemma ResumeStarts(kind: Kind, policies: string -> Policy, sys: System, id: string)
    requires Relaunch(id) in sys.pending && id !in sys.jobs
    ensures Step(kind, policies, sys, Resume(id, true)).owners == sys.owners + [id]
  {
  }

  /** How many steps a waiting ID is away from its start. */
  function Distance(sys: System, id: string): nat {
    if Restart(id) in sys.pending || Relaunch(id) in sys.pending then 1
    else if Backoff(id) in sys.pending || Renew(id) in sys.pending then 2
    else if Reset(id) in sys.pending then 3
    else if Retry(id) in sys.pending && id in sys.flapping then 4
    else 5
  }

  function NextEvent(sys: System, id: string): Event {
    if Restart(id) in sys.pending then Fire(id, true, true)
    else if Relaunch(id) in sys.pending then Resume(id, true)
    else if Backoff(id) in sys.pending then Delay(id)
    else if Renew(id) in sys.pending then Renewed(id)
    else if Reset(id) in sys.pending then Clear(id)
    else if Retry(id) in sys.pending && id in sys.flapping then Unflap(id, true)
    else Flag(id)
  }

  /** After a task of this ID in a waiting state. */
  lemma NextWaits(sys: System, sys': System, id: string, next: Task)
    requires next in sys'.pending && next.id == id && (next.Retry? ==> id in sys'.flapping)
    requires next.Restart? || next.Relaunch? || next.Renew? || next.Reset? || next.Retry?
    ensures Waiting(sys', id)
    ensures Distance(sys', id) <= if next.Restart? || next.Relaunch? then 1 else if next.Renew? then 2 else if next.Reset? then 3 else 4
  {
  }

  lemma DelayAdvances(kind: Kind, policies: string -> Policy, sys: System, id: string)
    requires Backoff(id) in sys.pending
    ensures var sys' := Step(kind, policies, sys, Delay(id));
            Restart(id) in sys'.pending && sys'.jobs == sys.jobs && sys'.owners == sys.owners
  {
  }

  lemma RenewedAdvances(kind: Kind, policies: string -> Policy, sys: System, id: string)
    requires Renew(id) in sys.pending
    ensures var sys' := Step(kind, policies, sys, Renewed(id));
            Relaunch(id) in sys'.pending && sys'.jobs == sys.jobs && sys'.owners == sys.owners
  {
  }

  lemma UnflapAdvances(kind: Kind, policies: string -> Policy, sys: System, id: string)
    requires Retry(id) in sys.pending && id in sys.flapping
    ensures var sys' := Step(kind, policies, sys, Unflap(id, true));
            Reset(id) in sys'.pending && sys'.jobs == sys.jobs && sys'.owners == sys.owners
  {
  }

  lemma FlagAdvances(kind: Kind, policies: string -> Policy, sys: System, id: string)
    requires Flap(id) in sys.pending
    ensures var sys' := Step(kind, policies, sys, Flag(id));
            Retry(id) in sys'.pending && sys'.jobs == sys.jobs && sys'.owners == sys.owners && id in sys'.flapping
  {
  }

  lemma ClearAdvances(kind: Kind, policies: string -> Policy, sys: System, id: string)
    requires Reset(id) in sys.pending && id !in sys.jobs
    ensures var sys' := Step(kind, policies, sys, Clear(id));
            Renew(id) in sys'.pending && sys'.jobs == sys.jobs && sys'.owners == sys.owners
  {
  }

  lemma Advance(kind: Kind, policies: string -> Policy, sys: System, id: string)
    requires Waiting(sys, id) && id !in sys.jobs && Distance(sys, id) > 1
    ensures var sys' := Step(kind, policies, sys, NextEvent(sys, id));
            Waiting(sys', id) && sys'.jobs == sys.jobs && sys'.owners == sys.owners && Distance(sys', id) < Distance(sys, id)
  {
    hide Step;
    var sys' := Step(kind, policies, sys, NextEvent(sys, id));
    if Backoff(id) in sys.pending {
      DelayAdvances(kind, policies, sys, id);
      NextWaits(sys, sys', id, Restart(id));
    } else if Renew(id) in sys.pending {
      RenewedAdvances(kind, policies, sys, id);
      NextWaits(sys, sys', id, Relaunch(id));
    } else if Reset(id) in sys.pending {
      ClearAdvances(kind, policies, sys, id);
      NextWaits(sys, sys', id, Renew(id));
    } else if Retry(id) in sys.pending && id in sys.flapping {
      UnflapAdvances(kind, policies, sys, id);
      NextWaits(sys, sys', id, Reset(id));
    } else {
      FlagAdvances(kind, policies, sys, id);
      NextWaits(sys, sys', id, Retry(id));
    }
  }

  /** A waiting task starts an ID that is not running. */
  lemma {:induction false} WaitingStarts(kind: Kind, policies: string -> Policy, events: seq<Event>, more: seq<Event>, id: string)
    returns (all: seq<Event>)
    requires NoStart(more, id)
    requires Waiting(Run(kind, policies, events + more), id) && id !in Run(kind, policies, events + more).jobs
    ensures NoStart(all, id)
    ensures Launches(Run(kind, policies, events + all), id) == Launches(Run(kind, policies, events + more), id) + 1
    decreases Distance(Run(kind, policies, events + more), id)
  {
    var sys := Run(kind, policies, events + more);
    var e := NextEvent(sys, id);
    all := more + [e];
    NoStartMore(more, e, id);
    if Distance(sys, id) > 1 {
      Advance(kind, policies, sys, id);
      hide Run, Step, NoStart, Waiting, Distance, NextEvent, Launches;
      RunAppendTwo(kind, policies, events, more, e);
      SameLaunches(sys, Run(kind, policies, events + all), id);
      all := WaitingStarts(kind, policies, events, all, id);
    } else {
      hide Run, Step, NoStart;
      RunAppendTwo(kind, policies, events, more, e);
      LaunchesGrow(sys.owners, id, id);
      if Restart(id) in sys.pending { FireStarts(kind, policies, sys, id); } else { ResumeStarts(kind, policies, sys, id); }
    }
  }

  lemma TallyGrants(kind: Kind, policies: string -> Policy, sys: System, id: string)
    requires kind == Relays || policies(id).limit >= 1
    ensures var sys' := Tally(kind, policies(id), sys, id, NextWindow(sys, policies(id), id));
            Waiting(sys', id) && sys'.jobs == sys.jobs && sys'.owners == sys.owners
            && forall revived :: Waiting(sys'.(revived := revived), id)
  {
  }

  lemma AgainWaits(kind: Kind, policies: string -> Policy, sys: System, id: string)
    requires Again(id) in sys.pending && (kind == Relays || policies(id).limit >= 1)
    ensures var sys' := Step(kind, policies, sys, Decide(id, true, NextWindow(sys, policies(id), id)));
            Waiting(sys', id) && sys'.jobs == sys.jobs && sys'.owners == sys.owners
  {
    hide Tally, Waiting;
    TallyGrants(kind, policies, Take(sys, Again(id)), id);
  }

  lemma NoteNotes(kind: Kind, policies: string -> Policy, sys: System, p: nat)
    requires p in sys.deciding
    ensures var sys' := Step(kind, policies, sys, Note(p));
            && p in sys'.deciding && sys'.deciding[p] == sys.deciding[p].(noted := true)
            && sys'.jobs == sys.jobs && sys'.owners == sys.owners && sys'.restarts == sys.restarts
  {
  }

  lemma OpenWaits(kind: Kind, policies: string -> Policy, sys: System, p: nat, id: string)
    requires p in sys.deciding && sys.deciding[p].noted && Undecided(kind, policies(id), sys.deciding[p], id)
    ensures var sys' := Step(kind, policies, sys, Settle(p, true, NextWindow(sys, policies(id), id)));
            Waiting(sys', id) && sys'.jobs == sys.jobs && sys'.owners == sys.owners
  {
    hide Tally, Waiting;
    TallyGrants(kind, policies, sys.(deciding := sys.deciding - {p}), id);
  }

  /** A decision still open, made in a fresh window, goes on to a start. */
  lemma DecisionWaits(kind: Kind, policies: string -> Policy, events: seq<Event>, more: seq<Event>, id: string) returns (all: seq<Event>)
    requires NoStart(more, id)
    requires CanRevive(kind, policies(id), Run(kind, policies, events + more), id) && id !in Run(kind, policies, events + more).jobs
    ensures NoStart(all, id)
    ensures Waiting(Run(kind, policies, events + all), id) && id !in Run(kind, policies, events + all).jobs
    ensures Launches(Run(kind, policies, events + all), id) == Launches(Run(kind, policies, events + more), id)
  {
    hide Run, Step, NoStart, Undecided, Waiting;
    all := more;
    var sys := Run(kind, policies, events + more);
    var now := NextWindow(sys, policies(id), id);
    if !Waiting(sys, id) {
      if Again(id) in sys.pending && (kind == Relays || policies(id).limit >= 1) {
        hide NextWindow;
        all := more + [Decide(id, true, now)];
        NoStartMore(more, Decide(id, true, now), id);
        RunAppendTwo(kind, policies, events, more, Decide(id, true, now));
        AgainWaits(kind, policies, sys, id);
      } else {
        var p :| p in sys.deciding && Undecided(kind, policies(id), sys.deciding[p], id);
        var first := more + [Note(p)];
        all := first + [Settle(p, true, now)];
        NoStartMore(more, Note(p), id);
        NoStartMore(first, Settle(p, true, now), id);
        RunAppendTwo(kind, policies, events, more, Note(p));
        RunAppendTwo(kind, policies, events, first, Settle(p, true, now));
        NoteNotes(kind, policies, sys, p);
        SameVerdict(kind, policies(id), sys.deciding[p], id);
        OpenWaits(kind, policies, Run(kind, policies, events + first), p, id);
      }
    }
  }

  lemma SameVerdict(kind: Kind, policy: Policy, w: Wait, id: string)
    ensures Undecided(kind, policy, w.(noted := true), id) == Undecided(kind, policy, w, id)
  {
  }

  lemma ExitFrees(kind: Kind, policies: string -> Policy, sys: System, id: string)
    requires Inv(kind, policies, sys) && id in sys.jobs && CanRevive(kind, policies(id), sys, id)
    ensures var sys' := ExitStep(kind, sys, sys.jobs[id].process, false);
            id !in sys'.jobs && CanRevive(kind, policies(id), sys', id) && sys'.owners == sys.owners
  {
    var p := sys.jobs[id].process;
    var sys' := ExitStep(kind, sys, p, false);
    assert p !in sys.deciding;
    if q :| q in sys.deciding && Undecided(kind, policies(id), sys.deciding[q], id) {
      assert sys'.deciding[q] == sys.deciding[q];
    }
  }

  lemma Revival(kind: Kind, policies: string -> Policy, events: seq<Event>, id: string) returns (more: seq<Event>)
    requires CanRevive(kind, policies(id), Run(kind, policies, events), id)
    ensures NoStart(more, id)
    ensures Launches(Run(kind, policies, events + more), id) == Launches(Run(kind, policies, events), id) + 1
  {
    hide Run, CanRevive, ExitStep, Inv;
    more := [];
    assert events + [] == events;
    var sys := Run(kind, policies, events);
    if id in sys.jobs {
      var exit := Exit(sys.jobs[id].process, false);
      RunKeeps(kind, policies, events);
      ExitFrees(kind, policies, sys, id);
      more := [exit];
      RunAppend(kind, policies, events, exit);
    }
    more := DecisionWaits(kind, policies, events, more, id);
    more := WaitingStarts(kind, policies, events, more, id);
  }

  /** Over every run: a stop is final, in that no continuation without an operator's start
      launches the ID again, if and only if at that moment no restart or failed start of the
      ID is under way, no flapping retry is ahead that will find it flapping, and no exit of
      a process of it that was not stopped awaits its decision; for streams, clean exits and
      a budget of 0 do not matter. */
  lemma StopIsFinal(kind: Kind, policies: string -> Policy, events: seq<Event>, id: string)
    ensures var stopped := events + [Stop(id)];
            !CanRevive(kind, policies(id), Run(kind, policies, events), id) <==>
              forall more | NoStart(more, id) ::
                Launches(Run(kind, policies, stopped + more), id) == Launches(Run(kind, policies, stopped), id)
  {
    var stopped := events + [Stop(id)];
    RunAppend(kind, policies, events, Stop(id));
    StopMarks(kind, policies, Run(kind, policies, events), id);
    hide Run, CanRevive, StopStep, Halted;
    if CanRevive(kind, policies(id), Run(kind, policies, events), id) {
      var more := Revival(kind, policies, stopped, id);
      assert NoStart(more, id);
    } else {
      forall more | NoStart(more, id)
        ensures Launches(Run(kind, policies, stopped + more), id) == Launches(Run(kind, policies, stopped), id)
      {
        HaltedRun(kind, policies, stopped, more, id);
      }
    }
  }

  lemma StopMarks(kind: Kind, policies: string -> Policy, sys: System, id: string)
    ensures CanRevive(kind, policies(id), StopStep(sys, id), id) == CanRevive(kind, policies(id), sys, id)
    ensures !CanRevive(kind, policies(id), sys, id) ==> Halted(kind, policies, StopStep(sys, id), id)
  {
  }

  // ---- crashes up to the end of the budget ----

  /** The ID runs as process k, which was started by its k-th restart, all within one
      window, and nothing else is under way. */
  predicate Running(sys: System, id: string, k: nat) {
    && sys.jobs == map[id := Job(k, false)] && |sys.owners| == k + 1 && sys.owners[k] == id && k !in sys.exited
    && sys.deciding == map[] && sys.pending == multiset{}
    && sys.restarts == if k == 0 then map[] else map[id := FixedWindow.Window(0, k)]
  }

  /** Process k has failed, and its exit was counted. */
  predicate Crashed(sys: System, id: string, k: nat, next: Task) {
    && sys.jobs == map[] && |sys.owners| == k + 1 && (forall p | p in sys.exited :: p <= k)
    && sys.deciding == map[] && sys.pending == multiset{next}
    && sys.restarts == map[id := FixedWindow.Window(0, k + 1)]
  }

  predicate Past(sys: System, k: nat) {
    forall p | p in sys.exited :: p <= k
  }

  lemma SampleStart(kind: Kind, policies: string -> Policy, id: string)
    ensures var sys := Step(kind, policies, Step(kind, policies, INITIAL, Start(id, true)), Told(id));
            Running(sys, id, 0) && Past(sys, 0)
  {
    hide Tally, StopStep, ExitStep, SettleStep, NoteStep, ClearStep;
  }

  lemma SampleExit(kind: Kind, policies: string -> Policy, sys: System, id: string, k: nat)
    requires Running(sys, id, k) && Past(sys, k)
    ensures var sys' := Step(kind, policies, Step(kind, policies, sys, Exit(k, true)), Note(k));
            && sys'.jobs == map[] && sys'.owners == sys.owners && Past(sys', k)
            && sys'.deciding == map[k := Wait(id, false, true, true)]
            && sys'.pending == sys.pending && sys'.restarts == sys.restarts
  {
    hide Tally, StopStep, SettleStep, ClearStep, Launch;
  }

  lemma SampleSettle(kind: Kind, policies: string -> Policy, sys: System, id: string, k: nat)
    requires sys.deciding == map[k := Wait(id, false, true, true)] && sys.pending == multiset{} && sys.jobs == map[]
    requires sys.restarts == (if k == 0 then map[] else map[id := FixedWindow.Window(0, k)]) && |sys.owners| == k + 1 && Past(sys, k)
    requires kind == Relays || k < policies(id).limit
    ensures var sys' := Step(kind, policies, sys, Settle(k, true, 0));
            Crashed(sys', id, k, if k < policies(id).limit then Backoff(id) else Flap(id))
  {
    hide StopStep, ExitStep, NoteStep, ClearStep, Launch;
  }

  lemma SampleDelay(kind: Kind, policies: string -> Policy, sys: System, id: string, k: nat)
    requires Crashed(sys, id, k, Backoff(id))
    ensures Crashed(Step(kind, policies, sys, Delay(id)), id, k, Restart(id))
  {
    hide Tally, StopStep, ExitStep, SettleStep, NoteStep, ClearStep, Launch;
  }

  lemma SampleRestart(kind: Kind, policies: string -> Policy, sys: System, id: string, k: nat)
    requires Crashed(sys, id, k, Restart(id))
    ensures var sys' := Step(kind, policies, Step(kind, policies, sys, Fire(id, true, true)), Told(id));
            Running(sys', id, k + 1) && Past(sys', k + 1)
  {
    FireStarts(kind, policies, sys, id);
    hide Tally, StopStep, ExitStep, SettleStep, NoteStep, ClearStep, Launch;
  }

  function Crash(k: nat): seq<Event> {
    [Exit(k, true), Note(k), Settle(k, true, 0)]
  }

  function Recovery(id: string): seq<Event> {
    [Delay(id), Fire(id, true, true), Told(id)]
  }

  /** A start and k crashes, each followed by its restart. */
  function Crashes(id: string, k: nat): seq<Event> {
    if k == 0 then [Start(id, true), Told(id)] else Crashes(id, k - 1) + Crash(k - 1) + Recovery(id)
  }

  lemma RunThree(kind: Kind, policies: string -> Policy, events: seq<Event>, a: Event, b: Event, c: Event)
    ensures Run(kind, policies, events + [a, b, c]) ==
            Step(kind, policies, Step(kind, policies, Step(kind, policies, Run(kind, policies, events), a), b), c)
  {
    hide Run, Step;
    assert events + [a, b, c] == ((events + [a]) + [b]) + [c];
    RunAppend(kind, policies, events, a);
    RunAppend(kind, policies, events + [a], b);
    RunAppend(kind, policies, (events + [a]) + [b], c);
  }

  lemma RunTwo(kind: Kind, policies: string -> Policy, events: seq<Event>, a: Event, b: Event)
    ensures Run(kind, policies, events + [a, b]) == Step(kind, policies, Step(kind, policies, Run(kind, policies, events), a), b)
  {
    hide Run, Step;
    assert events + [a, b] == (events + [a]) + [b];
    RunAppend(kind, policies, events, a);
    RunAppend(kind, policies, events + [a], b);
  }

  lemma AfterCrash(kind: Kind, policies: string -> Policy, events: seq<Event>, id: string, k: nat)
    requires Running(Run(kind, policies, events), id, k) && Past(Run(kind, policies, events), k)
    requires kind == Relays || k < policies(id).limit
    ensures Crashed(Run(kind, policies, events + Crash(k)), id, k, if k < policies(id).limit then Backoff(id) else Flap(id))
  {
    var sys := Run(kind, policies, events);
    RunThree(kind, policies, events, Exit(k, true), Note(k), Settle(k, true, 0));
    SampleExit(kind, policies, sys, id, k);
    hide Run, Step;
    SampleSettle(kind, policies, Step(kind, policies, Step(kind, policies, sys, Exit(k, true)), Note(k)), id, k);
  }

  lemma AfterStart(kind: Kind, policies: string -> Policy, id: string)
    ensures var sys := Run(kind, policies, [Start(id, true), Told(id)]); Running(sys, id, 0) && Past(sys, 0)
  {
    assert Run(kind, policies, []) == INITIAL;
    hide Run, Step, Running, Past;
    RunTwo(kind, policies, [], Start(id, true), Told(id));
    assert [] + [Start(id, true), Told(id)] == [Start(id, true), Told(id)];
    SampleStart(kind, policies, id);
  }

  lemma AfterRecovery(kind: Kind, policies: string -> Policy, events: seq<Event>, id: string, k: nat)
    requires Crashed(Run(kind, policies, events), id, k, Backoff(id))
    ensures var sys := Run(kind, policies, events + Recovery(id)); Running(sys, id, k + 1) && Past(sys, k + 1)
  {
    hide Run, Step, Running, Past, Crashed;
    RunThree(kind, policies, events, Delay(id), Fire(id, true, true), Told(id));
    SampleDelay(kind, policies, Run(kind, policies, events), id, k);
    SampleRestart(kind, policies, Step(kind, policies, Run(kind, policies, events), Delay(id)), id, k);
  }

  lemma {:induction false} AfterCrashes(kind: Kind, policies: string -> Policy, id: string, k: nat)
    requires k <= policies(id).limit
    ensures var sys := Run(kind, policies, Crashes(id, k)); Running(sys, id, k) && Past(sys, k)
  {
    hide Run, Running, Past, Crashed, Crash, Recovery;
    if k == 0 {
      AfterStart(kind, policies, id);
    } else {
      AfterCrashes(kind, policies, id, k - 1);
      AfterCrash(kind, policies, Crashes(id, k - 1), id, k - 1);
      AfterRecovery(kind, policies, Crashes(id, k - 1) + Crash(k - 1), id, k - 1);
    }
  }

  // ---- runs in which a stop is not final, and is ----

  /** From the start: the process exits, its restart is scheduled, the operator's stop
      finds nothing to stop, and the restart goes ahead. */
  lemma StopMissesPendingRestart(kind: Kind, policies: string -> Policy, id: string)
    requires policies(id).limit >= 1
    ensures var stopped := Crashes(id, 0) + Crash(0) + [Stop(id)];
            && Run(kind, policies, stopped).jobs == map[]
            && Run(kind, policies, stopped + [Delay(id), Fire(id, true, true)]).jobs == map[id := Job(1, false)]
  {
    hide Run, Step, Crashes, Running, Past;
    AfterCrashes(kind, policies, id, 0);
    AfterCrash(kind, policies, Crashes(id, 0), id, 0);
    var crashed := Crashes(id, 0) + Crash(0);
    RunAppend(kind, policies, crashed, Stop(id));
    StopFindsNothing(kind, policies, Run(kind, policies, crashed), id);
    RunTwo(kind, policies, crashed + [Stop(id)], Delay(id), Fire(id, true, true));
    SampleDelay(kind, policies, Run(kind, policies, crashed), id, 0);
    FireStarts(kind, policies, Step(kind, policies, Run(kind, policies, crashed), Delay(id)), id);
  }

  lemma StopFindsNothing(kind: Kind, policies: string -> Policy, sys: System, id: string)
    requires id !in sys.jobs
    ensures Step(kind, policies, sys, Stop(id)) == sys
  {
  }

  /** A relay that crashed once more than its budget and is marked as flapping. */
  function Flapped(id: string, limit: nat): seq<Event> {
    Crashes(id, limit) + Crash(limit) + [Flag(id)]
  }

  lemma SampleFlag(policies: string -> Policy, sys: System, id: string, k: nat)
    requires Crashed(sys, id, k, Flap(id))
    ensures var sys' := Step(Relays, policies, sys, Flag(id));
            sys'.jobs == map[] && sys'.deciding == map[] && sys'.pending == multiset{Retry(id)} && id in sys'.flapping
  {
    hide Tally, StopStep, ExitStep, SettleStep, NoteStep, ClearStep, Launch;
  }

  lemma SampleOperator(policies: string -> Policy, sys: System, id: string)
    requires sys.jobs == map[] && sys.deciding == map[] && sys.pending == multiset{Retry(id)}
    ensures var sys' := Step(Relays, policies, Step(Relays, policies, sys, Start(id, true)), Told(id));
            id in sys'.jobs && sys'.deciding == map[] && sys'.pending == multiset{Retry(id)} && id !in sys'.flapping
  {
    hide Tally, StopStep, ExitStep, SettleStep, NoteStep, ClearStep;
  }

  /** A relay flaps with a retry ahead. A stop now would not be final; but once the operator
      has started it, and that status is written, a stop is final although the retry is
      still ahead: it will find that the relay is not flapping. */
  lemma StartDisarmsRetry(policies: string -> Policy, id: string)
    ensures var flapped := Flapped(id, policies(id).limit);
            var started := flapped + [Start(id, true), Told(id)];
            && CanRevive(Relays, policies(id), Run(Relays, policies, flapped), id)
            && id in Run(Relays, policies, started).jobs && Run(Relays, policies, started).pending == multiset{Retry(id)}
            && !CanRevive(Relays, policies(id), Run(Relays, policies, started), id)
  {
    hide Run, Step, Crashes, Running, Past;
    var limit := policies(id).limit;
    var crashed := Crashes(id, limit) + Crash(limit);
    AfterCrashes(Relays, policies, id, limit);
    AfterCrash(Relays, policies, Crashes(id, limit), id, limit);
    RunAppend(Relays, policies, crashed, Flag(id));
    SampleFlag(policies, Run(Relays, policies, crashed), id, limit);
    RunTwo(Relays, policies, Flapped(id, limit), Start(id, true), Told(id));
    SampleOperator(policies, Run(Relays, policies, Flapped(id, limit)), id);
  }

  // ---- the code ----

  /** What both managers do under their lock and with their timers; `sys` follows the
      state with its history. */
  class Manager {
    const kind: Kind
    const policies: string -> Policy
    var jobs: map<string, Job>
    var restarts: map<string, FixedWindow.Window>
    var started: nat
    var tasks: multiset<Task>
    var flapping: set<string>
    ghost var sys: System

    ghost predicate Valid()
      reads this
    {
      && Inv(kind, policies, sys)
      && jobs == sys.jobs && restarts == sys.restarts && started == |sys.owners| && tasks == sys.pending
      && flapping == sys.flapping
    }

    constructor (kind: Kind, policies: string -> Policy)
      ensures Valid() && sys == INITIAL && this.kind == kind && this.policies == policies
    {
      this.kind, this.policies := kind, policies;
      jobs, restarts, started, tasks, flapping := map[], map[], 0, multiset{}, {};
      sys := INITIAL;
    }

    /** start from its lock on. */
    method Start(id: string, restarted: bool, spawns: bool) returns (ok: bool)
      requires Valid()
      modifies this
      ensures Valid() && (sys, ok) == Launch(old(sys), id, restarted, spawns)
    {
      hide Inv;
      LaunchKeeps(kind, policies, sys, id, restarted, spawns);
      if id in jobs || !spawns {
        return false;
      }
      sys := Launch(sys, id, restarted, spawns).0;
      jobs := jobs[id := Job(started, false)];
      started := started + 1;
      if !restarted {
        restarts := restarts - {id};
      }
      tasks := tasks + multiset{Tell(id)};
      return true;
    }

    method Stop(id: string) returns (running: bool)
      requires Valid()
      modifies this
      ensures Valid() && sys == StopStep(old(sys), id) && running == (id in old(jobs))
    {
      hide Inv;
      StopKeeps(kind, policies, sys, id);
      sys := StopStep(sys, id);
      if id !in jobs {
        return false;
      }
      jobs := jobs[id := jobs[id].(stopping := true)];
      restarts := restarts - {id};
      tasks := tasks + multiset{Tell(id)};
      return true;
    }

    /** wait once the process is gone, under the lock. The job found is always the
        process's own, so its channel is the one to close. */
    method Reap(id: string, process: nat, failed: bool) returns (stopping: bool)
      requires Valid() && process < started && process !in sys.exited && sys.owners[process] == id
      modifies this
      ensures Valid() && sys == ExitStep(kind, old(sys), process, failed)
      ensures id in old(jobs) && old(jobs[id]) == Job(process, stopping)
      ensures process in sys.deciding && sys.deciding[process] == Wait(id, stopping, failed, false)
    {
      hide Inv;
      ExitKeeps(kind, policies, sys, process, failed);
      OwnJob(kind, policies, sys, process);
      sys := ExitStep(kind, sys, process, failed);
      stopping := jobs[id].stopping;
      jobs := jobs - {id};
    }

    /** allowRestart, or the lock of maybeRestart, and the choice of what follows. */
    method Count(id: string, now: int) returns (allowed: bool)
      requires Valid()
      modifies this
      ensures Valid() && sys == Tally(kind, policies(id), old(sys), id, now)
      ensures allowed == FixedWindow.Granted(HitsOf(sys.hits, id), policies(id).period, policies(id).limit)
    {
      hide Inv, FixedWindow.Current;
      CountKeeps(kind, policies, sys, id, now);
      CurrentHit(kind, policies, sys, id, now);
      sys := Tally(kind, policies(id), sys, id, now);
      var tracker := if id in restarts then Some(restarts[id]) else None;
      if tracker.None? || now - tracker.value.started > policies(id).period {
        tracker := Some(FixedWindow.Window(now, 0));
      }
      tracker := Some(FixedWindow.Window(tracker.value.started, tracker.value.count + 1));
      restarts := restarts[id := tracker.value];
      allowed := tracker.value.count <= policies(id).limit;
      if allowed {
        tasks := tasks + multiset{Backoff(id)};
      } else if kind == Relays {
        tasks := tasks + multiset{Flap(id)};
      }
    }

    /** wait writes the status. */
    method NoteExit(process: nat, wait: Wait)
      requires Valid() && process in sys.deciding && sys.deciding[process] == wait
      modifies this
      ensures Valid() && sys == NoteStep(old(sys), process)
    {
      hide Inv;
      NoteKeeps(kind, policies, sys, process);
      sys := NoteStep(sys, process);
      flapping := flapping - {wait.id};
    }

    /** wait decides. */
    method Settle(process: nat, wait: Wait, enabled: bool, now: int)
      requires Valid() && process in sys.deciding && sys.deciding[process] == wait && wait.noted
      modifies this
      ensures Valid() && sys == SettleStep(kind, policies, old(sys), process, enabled, now)
    {
      hide Inv, Tally;
      SettleKeeps(kind, policies, sys, process, enabled, now);
      ghost var after := SettleStep(kind, policies, sys, process, enabled, now);
      WaitDone(kind, policies, sys, process);
      sys := sys.(deciding := sys.deciding - {process});
      if wait.stopping || (kind == Streams && !wait.failed) || !enabled {
        return;
      }
      var _ := Count(wait.id, now);
      sys := after;
    }

    /** A restart is granted: the status is written and the backoff begins. */
    method BeginBackoff(id: string)
      requires Valid() && Backoff(id) in tasks
      modifies this
      ensures Valid() && sys == StatusStep(old(sys), Delay(id))
    {
      hide Inv;
      MoveKeeps(kind, policies, sys, Backoff(id), multiset{Restart(id)}, sys.flapping - {id});
      sys := StatusStep(sys, Delay(id));
      flapping := flapping - {id};
      tasks := tasks - multiset{Backoff(id)} + multiset{Restart(id)};
    }

    /** The backoff timer. */
    method FireRestart(id: string, enabled: bool, spawns: bool)
      requires Valid() && Restart(id) in tasks
      modifies this
      ensures Valid() && sys == Step(kind, policies, old(sys), Fire(id, enabled, spawns))
    {
      hide Inv, Launch;
      TakeTask(Restart(id));
      if !enabled {
        return;
      }
      var ok := Start(id, true, spawns);
      if !ok && kind == Streams {
        PutTask(Again(id));
      }
    }

    /** maybeRestart after an automatic start that failed. */
    method RestartFailed(id: string, enabled: bool, now: int)
      requires Valid() && Again(id) in tasks
      modifies this
      ensures Valid() && sys == Step(kind, policies, old(sys), Decide(id, enabled, now))
    {
      hide Inv, Tally;
      TakeTask(Again(id));
      if enabled {
        var _ := Count(id, now);
      }
    }

    /** The budget is spent: the status is written and the flapping timer set. */
    method MarkFlapping(id: string)
      requires Valid() && Flap(id) in tasks
      modifies this
      ensures Valid() && sys == StatusStep(old(sys), Flag(id))
    {
      hide Inv;
      MoveKeeps(kind, policies, sys, Flap(id), multiset{Retry(id)}, sys.flapping + {id});
      sys := StatusStep(sys, Flag(id));
      flapping := flapping + {id};
      tasks := tasks - multiset{Flap(id)} + multiset{Retry(id)};
    }

    /** retryFlapping: only a relay that is still flapping goes on. */
    method CheckFlapping(id: string, enabled: bool) returns (proceeds: bool)
      requires Valid() && Retry(id) in tasks
      modifies this
      ensures Valid() && sys == StatusStep(old(sys), Unflap(id, enabled))
      ensures proceeds == (enabled && id in old(flapping))
    {
      hide Inv;
      proceeds := enabled && id in flapping;
      MoveKeeps(kind, policies, sys, Retry(id), if enabled && id in sys.flapping then multiset{Reset(id)} else multiset{}, sys.flapping);
      sys := StatusStep(sys, Unflap(id, enabled));
      tasks := tasks - multiset{Retry(id)} + if proceeds then multiset{Reset(id)} else multiset{};
    }

    /** ... under the lock. */
    method ClearTracker(id: string) returns (proceeds: bool)
      requires Valid() && Reset(id) in tasks
      modifies this
      ensures Valid() && sys == ClearStep(old(sys), id) && proceeds == (id !in old(jobs))
    {
      hide Inv, ClearStep;
      ClearKeeps(kind, policies, sys, id);
      ClearGives(sys, id);
      sys := ClearStep(sys, id);
      restarts := restarts - {id};
      proceeds := id !in jobs;
      tasks := tasks - multiset{Reset(id)};
      if proceeds {
        tasks := tasks + multiset{Renew(id)};
      }
    }

    /** ... writes the status ... */
    method AnnounceRestart(id: string)
      requires Valid() && Renew(id) in tasks
      modifies this
      ensures Valid() && sys == StatusStep(old(sys), Renewed(id))
    {
      hide Inv;
      MoveKeeps(kind, policies, sys, Renew(id), multiset{Relaunch(id)}, sys.flapping - {id});
      sys := StatusStep(sys, Renewed(id));
      flapping := flapping - {id};
      tasks := tasks - multiset{Renew(id)} + multiset{Relaunch(id)};
    }

    /** ... and starts. */
    method ResumeFlapping(id: string, spawns: bool)
      requires Valid() && Relaunch(id) in tasks
      modifies this
      ensures Valid() && sys == Step(kind, policies, old(sys), Resume(id, spawns))
    {
      hide Inv, Launch;
      TakeTask(Relaunch(id));
      var ok := Start(id, true, spawns);
      if !ok {
        PutTask(Flap(id));
      }
    }

    /** The write after a start or a stop. */
    method TellStatus(id: string)
      requires Valid() && Tell(id) in tasks
      modifies this
      ensures Valid() && sys == StatusStep(old(sys), Told(id))
    {
      hide Inv;
      MoveKeeps(kind, policies, sys, Tell(id), multiset{}, sys.flapping - {id});
      sys := StatusStep(sys, Told(id));
      flapping := flapping - {id};
      tasks := tasks - multiset{Tell(id)};
    }

    method TakeTask(task: Task)
      requires Valid()
      modifies this
      ensures Valid() && sys == Take(old(sys), task)
    {
      hide Inv;
      PendingKeeps(kind, policies, sys, Take(sys, task).pending, {});
      tasks := tasks - multiset{task};
      sys := Take(sys, task);
    }

    method PutTask(task: Task)
      requires Valid()
      modifies this
      ensures Valid() && sys == old(sys).(pending := old(sys).pending + multiset{task})
    {
      hide Inv;
      PendingKeeps(kind, policies, sys, sys.pending + multiset{task}, {});
      tasks := tasks + multiset{task};
      sys := sys.(pending := sys.pending + multiset{task});
    }
  }

  lemma ClearGives(sys: System, id: string)
    requires Reset(id) in sys.pending
    ensures ClearStep(sys, id) ==
            sys.(restarts := sys.restarts - {id}, hits := sys.hits - {id},
                 pending := sys.pending - multiset{Reset(id)} + if id in sys.jobs then multiset{} else multiset{Renew(id)})
  {
  }

  lemma WaitDone(kind: Kind, policies: string -> Policy, sys: System, process: nat)
    requires Inv(kind, policies, sys)
    ensures Inv(kind, policies, sys.(deciding := sys.deciding - {process}))
  {
  }

  lemma OwnJob(kind: Kind, policies: string -> Policy, sys: System, process: nat)
    requires Inv(kind, policies, sys) && process < |sys.owners| && process !in sys.exited
    ensures sys.owners[process] in sys.jobs && sys.jobs[sys.owners[process]].process == process
  {
  }

  lemma CurrentHit(kind: Kind, policies: string -> Policy, sys: System, id: string, now: int)
    requires Inv(kind, policies, sys)
    ensures FixedWindow.Current(HitsOf(sys.hits, id) + [now], policies(id).period) ==
            Some(FixedWindow.Hit(Tracker(sys.restarts, id), now, policies(id).period))
  {
    hide FixedWindow.Hit;
    var times := HitsOf(sys.hits, id);
    assert (times + [now])[..|times|] == times;
  }
}
