/** What one event does at any point of a run of a supervisor, told apart by what it
    concerns: processes, restart decisions, work to come and the flapping status. */
module SupervisionSteps {
  import opened Wrappers
  import opened Supervision
  import FixedWindow

  // ---- what events do to one ID ----

  /** An event that starts a process: an operator's start, the end of a backoff or of a
      flapping retry, of an enabled ID that is not running. */
  predicate Starts(sys: System, e: Event, id: string) {
    && id !in sys.jobs
    && (|| e == Start(id, true)
        || (e == Fire(id, true, true) && Restart(id) in sys.pending)
        || (e == Resume(id, true) && Relaunch(id) in sys.pending))
  }

  /** The process of a job goes with its exit. */
  predicate Exits(sys: System, e: Event, id: string) {
    id in sys.jobs && e.Exit? && e.process == sys.jobs[id].process
  }

  /** A restart decision about the ID: an exit that was not asked for, of a stream only if
      it failed, or an automatic start that failed, while the ID is enabled. */
  predicate Counts(kind: Kind, sys: System, e: Event, id: string) {
    || (&& e.Settle? && e.enabled && e.process in sys.deciding
        && var w := sys.deciding[e.process];
           w.id == id && w.noted && !w.stopping && (kind == Relays || w.failed))
    || (e.Decide? && e.enabled && e.id == id && Again(id) in sys.pending)
  }

  /** The tracker starts anew: an operator's start of an ID that is not running, a stop of
      one that is, or a flapping retry. */
  predicate Forgets(sys: System, e: Event, id: string) {
    || (e == Start(id, true) && id !in sys.jobs)
    || (e == Stop(id) && id in sys.jobs)
    || (e == Clear(id) && Reset(id) in sys.pending)
  }

  /** The event marks a spent budget. */
  predicate Flags(sys: System, e: Event, id: string) {
    e == Flag(id) && Flap(id) in sys.pending
  }

  /** The event writes another status of the ID. */
  predicate Overwrites(sys: System, e: Event, id: string) {
    || (e.Note? && e.process in sys.deciding && sys.deciding[e.process].id == id)
    || (e == Delay(id) && Backoff(id) in sys.pending)
    || (e == Renewed(id) && Renew(id) in sys.pending)
    || (e == Told(id) && Tell(id) in sys.pending)
    || e == Report(id)
  }

  /** How many processes the ID has had, and which one runs. */
  ghost predicate ProcessesMove(sys: System, sys': System, e: Event, id: string) {
    && Launches(sys', id) == Launches(sys, id) + (if Starts(sys, e, id) then 1 else 0)
    && (id in sys'.jobs <==> Starts(sys, e, id) || (id in sys.jobs && !Exits(sys, e, id)))
    && (id in sys'.jobs ==>
          && (Starts(sys, e, id) ==> sys'.jobs[id] == Job(|sys.owners|, false))
          && (!Starts(sys, e, id) ==> sys'.jobs[id] == if e == Stop(id) then sys.jobs[id].(stopping := true) else sys.jobs[id]))
  }

  ghost predicate DecisionsMove(kind: Kind, sys: System, sys': System, e: Event, id: string) {
    HitsOf(sys'.hits, id) ==
      if Forgets(sys, e, id) then [] else if Counts(kind, sys, e, id) then HitsOf(sys.hits, id) + [e.now] else HitsOf(sys.hits, id)
  }

  ghost predicate FlappingMoves(sys: System, sys': System, e: Event, id: string) {
    id in sys'.flapping <==> Flags(sys, e, id) || (id in sys.flapping && !Overwrites(sys, e, id))
  }

  ghost predicate Moves(kind: Kind, sys: System, sys': System, e: Event, id: string) {
    ProcessesMove(sys, sys', e, id) && DecisionsMove(kind, sys, sys', e, id) && FlappingMoves(sys, sys', e, id)
  }

  lemma LaunchOne(sys: System, id: string, restarted: bool, spawns: bool, other: string)
    ensures var sys' := Launch(sys, id, restarted, spawns).0;
            var starts := id !in sys.jobs && spawns;
            && Launch(sys, id, restarted, spawns).1 == starts
            && sys'.owners == (if starts then sys.owners + [id] else sys.owners)
            && sys'.jobs == (if starts then sys.jobs[id := Job(|sys.owners|, false)] else sys.jobs)
            && sys'.pending == (if starts then sys.pending + multiset{Tell(id)} else sys.pending)
            && HitsOf(sys'.hits, other) == (if starts && !restarted && other == id then [] else HitsOf(sys.hits, other))
            && sys'.flapping == sys.flapping && sys'.deciding == sys.deciding && sys'.exited == sys.exited
  {
  }

  lemma TallyOne(kind: Kind, policy: Policy, sys: System, id: string, now: int, other: string)
    ensures var sys' := Tally(kind, policy, sys, id, now);
            && sys'.owners == sys.owners && sys'.jobs == sys.jobs && sys'.flapping == sys.flapping
            && sys'.deciding == sys.deciding && sys'.exited == sys.exited
            && HitsOf(sys'.hits, other) == (if other == id then HitsOf(sys.hits, id) + [now] else HitsOf(sys.hits, other))
  {
  }

  lemma ExitOne(kind: Kind, policies: string -> Policy, sys: System, process: nat, failed: bool, id: string)
    requires Inv(kind, policies, sys)
    ensures var sys' := ExitStep(kind, sys, process, failed);
            && sys'.owners == sys.owners && sys'.hits == sys.hits && sys'.pending == sys.pending && sys'.flapping == sys.flapping
            && (id in sys'.jobs <==> id in sys.jobs && sys.jobs[id].process != process)
            && (id in sys'.jobs ==> sys'.jobs[id] == sys.jobs[id])
            && (id in sys.jobs && sys.jobs[id].process == process ==>
                  sys'.deciding == sys.deciding[process := Wait(id, process in sys.marked, failed, false)])
  {
  }

  lemma StartGives(kind: Kind, policies: string -> Policy, sys: System, other: string, spawns: bool, id: string)
    ensures var sys' := Step(kind, policies, sys, Start(other, spawns));
            var starts := spawns && other !in sys.jobs;
            && Launches(sys', id) == Launches(sys, id) + (if starts && other == id then 1 else 0)
            && sys'.jobs == (if starts then sys.jobs[other := Job(|sys.owners|, false)] else sys.jobs)
            && HitsOf(sys'.hits, id) == (if starts && other == id then [] else HitsOf(sys.hits, id)) && sys'.flapping == sys.flapping
  {
    LaunchOne(sys, other, false, spawns, id);
    LaunchesGrow(sys.owners, other, id);
    hide Launch, HitsOf;
  }

  lemma StartMoves(kind: Kind, policies: string -> Policy, sys: System, other: string, spawns: bool, id: string)
    ensures Moves(kind, sys, Step(kind, policies, sys, Start(other, spawns)), Start(other, spawns), id)
  {
    StartGives(kind, policies, sys, other, spawns, id);
    hide Step, HitsOf, Launches;
  }

  lemma StopMoves(kind: Kind, policies: string -> Policy, sys: System, other: string, id: string)
    ensures Moves(kind, sys, Step(kind, policies, sys, Stop(other)), Stop(other), id)
  {
  }

  lemma TakenAndLaunched(sys: System, task: Task, id: string, spawns: bool, other: string)
    ensures var sys' := Launch(Take(sys, task), id, true, spawns).0;
            var starts := id !in sys.jobs && spawns;
            && Launch(Take(sys, task), id, true, spawns).1 == starts
            && Launches(sys', other) == Launches(sys, other) + (if starts && other == id then 1 else 0)
            && sys'.jobs == (if starts then sys.jobs[id := Job(|sys.owners|, false)] else sys.jobs)
            && HitsOf(sys'.hits, other) == HitsOf(sys.hits, other)
            && sys'.flapping == sys.flapping && sys'.deciding == sys.deciding && sys'.exited == sys.exited
  {
    LaunchOne(Take(sys, task), id, true, spawns, other);
    LaunchesGrow(sys.owners, id, other);
    hide Launch, HitsOf;
  }

  lemma FireGives(kind: Kind, policies: string -> Policy, sys: System, other: string, enabled: bool, spawns: bool, id: string)
    ensures var sys' := Step(kind, policies, sys, Fire(other, enabled, spawns));
            var starts := Restart(other) in sys.pending && enabled && spawns && other !in sys.jobs;
            && Launches(sys', id) == Launches(sys, id) + (if starts && other == id then 1 else 0)
            && sys'.jobs == (if starts then sys.jobs[other := Job(|sys.owners|, false)] else sys.jobs)
            && HitsOf(sys'.hits, id) == HitsOf(sys.hits, id) && sys'.flapping == sys.flapping
  {
    TakenAndLaunched(sys, Restart(other), other, spawns, id);
    hide Launch, HitsOf;
  }

  lemma FireMoves(kind: Kind, policies: string -> Policy, sys: System, other: string, enabled: bool, spawns: bool, id: string)
    ensures Moves(kind, sys, Step(kind, policies, sys, Fire(other, enabled, spawns)), Fire(other, enabled, spawns), id)
  {
    FireGives(kind, policies, sys, other, enabled, spawns, id);
    hide Step, HitsOf, Launches;
  }

  lemma ResumeGives(kind: Kind, policies: string -> Policy, sys: System, other: string, spawns: bool, id: string)
    ensures var sys' := Step(kind, policies, sys, Resume(other, spawns));
            var starts := Relaunch(other) in sys.pending && spawns && other !in sys.jobs;
            && Launches(sys', id) == Launches(sys, id) + (if starts && other == id then 1 else 0)
            && sys'.jobs == (if starts then sys.jobs[other := Job(|sys.owners|, false)] else sys.jobs)
            && HitsOf(sys'.hits, id) == HitsOf(sys.hits, id) && sys'.flapping == sys.flapping
  {
    TakenAndLaunched(sys, Relaunch(other), other, spawns, id);
    hide Launch, HitsOf;
  }

  lemma ResumeMoves(kind: Kind, policies: string -> Policy, sys: System, other: string, spawns: bool, id: string)
    ensures Moves(kind, sys, Step(kind, policies, sys, Resume(other, spawns)), Resume(other, spawns), id)
  {
    ResumeGives(kind, policies, sys, other, spawns, id);
    hide Step, HitsOf, Launches;
  }

  lemma ExitGives(kind: Kind, policies: string -> Policy, sys: System, process: nat, failed: bool, id: string)
    requires Inv(kind, policies, sys)
    ensures var sys' := Step(kind, policies, sys, Exit(process, failed));
            && Launches(sys', id) == Launches(sys, id) && sys'.hits == sys.hits && sys'.flapping == sys.flapping
            && (id in sys'.jobs <==> id in sys.jobs && sys.jobs[id].process != process)
            && (id in sys'.jobs ==> sys'.jobs[id] == sys.jobs[id])
  {
    ExitOne(kind, policies, sys, process, failed, id);
    SameLaunches(sys, ExitStep(kind, sys, process, failed), id);
    hide ExitStep, Inv, Launches;
  }

  lemma ExitMoves(kind: Kind, policies: string -> Policy, sys: System, process: nat, failed: bool, id: string)
    requires Inv(kind, policies, sys)
    ensures Moves(kind, sys, Step(kind, policies, sys, Exit(process, failed)), Exit(process, failed), id)
  {
    ExitGives(kind, policies, sys, process, failed, id);
    hide Step, Inv, HitsOf, Launches;
  }

  lemma NoteMoves(kind: Kind, policies: string -> Policy, sys: System, process: nat, id: string)
    ensures Moves(kind, sys, Step(kind, policies, sys, Note(process)), Note(process), id)
  {
  }

  lemma SettledTally(kind: Kind, policy: Policy, sys: System, id: string, now: int, deciding: map<nat, Wait>, other: string)
    ensures var sys' := Tally(kind, policy, sys.(deciding := deciding), id, now);
            && sys'.pending == Tally(kind, policy, sys, id, now).pending
            && sys'.deciding == deciding && sys'.exited == sys.exited
            && sys'.owners == sys.owners && sys'.jobs == sys.jobs && sys'.flapping == sys.flapping
            && HitsOf(sys'.hits, other) == (if other == id then HitsOf(sys.hits, id) + [now] else HitsOf(sys.hits, other))
  {
  }

  lemma SettleGives(kind: Kind, policies: string -> Policy, sys: System, process: nat, enabled: bool, now: int, id: string)
    ensures var sys' := SettleStep(kind, policies, sys, process, enabled, now);
            && sys'.owners == sys.owners && sys'.jobs == sys.jobs && sys'.flapping == sys.flapping
            && HitsOf(sys'.hits, id) ==
               (if process in sys.deciding && sys.deciding[process].noted && sys.deciding[process].id == id
                   && !(sys.deciding[process].stopping || (kind == Streams && !sys.deciding[process].failed) || !enabled)
                then HitsOf(sys.hits, id) + [now] else HitsOf(sys.hits, id))
  {
    if process in sys.deciding {
      var w := sys.deciding[process];
      SettledTally(kind, policies(w.id), sys, w.id, now, sys.deciding - {process}, id);
    }
    hide Tally, HitsOf;
  }

  lemma SettleMoves(kind: Kind, policies: string -> Policy, sys: System, process: nat, enabled: bool, now: int, id: string)
    ensures Moves(kind, sys, Step(kind, policies, sys, Settle(process, enabled, now)), Settle(process, enabled, now), id)
  {
    SettleGives(kind, policies, sys, process, enabled, now, id);
    SameLaunches(sys, SettleStep(kind, policies, sys, process, enabled, now), id);
    hide SettleStep, HitsOf, Launches;
  }

  lemma DecideGives(kind: Kind, policies: string -> Policy, sys: System, other: string, enabled: bool, now: int, id: string)
    ensures var sys' := Step(kind, policies, sys, Decide(other, enabled, now));
            && sys'.owners == sys.owners && sys'.jobs == sys.jobs && sys'.flapping == sys.flapping
            && HitsOf(sys'.hits, id) ==
               (if Again(other) in sys.pending && enabled && other == id then HitsOf(sys.hits, id) + [now] else HitsOf(sys.hits, id))
  {
    TallyOne(kind, policies(other), Take(sys, Again(other)), other, now, id);
    hide Tally, HitsOf;
  }

  lemma DecideMoves(kind: Kind, policies: string -> Policy, sys: System, other: string, enabled: bool, now: int, id: string)
    ensures Moves(kind, sys, Step(kind, policies, sys, Decide(other, enabled, now)), Decide(other, enabled, now), id)
  {
    DecideGives(kind, policies, sys, other, enabled, now, id);
    SameLaunches(sys, Step(kind, policies, sys, Decide(other, enabled, now)), id);
    hide Step, HitsOf, Launches;
  }

  lemma ClearMoves(kind: Kind, policies: string -> Policy, sys: System, other: string, id: string)
    ensures Moves(kind, sys, Step(kind, policies, sys, Clear(other)), Clear(other), id)
  {
    hide Step, ClearStep;
    ClearIs(kind, policies, sys, other);
    if Reset(other) in sys.pending { ClearGives(sys, other); }
  }

  lemma ClearIs(kind: Kind, policies: string -> Policy, sys: System, other: string)
    ensures Step(kind, policies, sys, Clear(other)) == if Reset(other) in sys.pending then ClearStep(sys, other) else sys
  {
  }

  lemma MoveMoves(kind: Kind, sys: System, task: Task, next: multiset<Task>, flapping: set<string>, e: Event, id: string)
    requires e.Delay? || e.Flag? || e.Unflap? || e.Renewed? || e.Told?
    requires Carries(e) == Some(task)
    requires task in sys.pending ==> (id in flapping <==> Flags(sys, e, id) || (id in sys.flapping && !Overwrites(sys, e, id)))
    ensures Moves(kind, sys, Move(sys, task, next, flapping), e, id)
  {
  }

  lemma StatusMoves(kind: Kind, policies: string -> Policy, sys: System, e: Event, id: string)
    requires e.Delay? || e.Flag? || e.Unflap? || e.Renewed? || e.Told? || e.Report?
    ensures Moves(kind, sys, Step(kind, policies, sys, e), e, id)
  {
    hide Move, Moves;
    match e {
      case Delay(x) => MoveMoves(kind, sys, Backoff(x), multiset{Restart(x)}, sys.flapping - {x}, e, id);
      case Flag(x) => MoveMoves(kind, sys, Flap(x), multiset{Retry(x)}, sys.flapping + {x}, e, id);
      case Unflap(x, enabled) =>
        MoveMoves(kind, sys, Retry(x), if enabled && x in sys.flapping then multiset{Reset(x)} else multiset{}, sys.flapping, e, id);
      case Renewed(x) => MoveMoves(kind, sys, Renew(x), multiset{Relaunch(x)}, sys.flapping - {x}, e, id);
      case Told(x) => MoveMoves(kind, sys, Tell(x), multiset{}, sys.flapping - {x}, e, id);
      case Report(x) => ReportMoves(kind, sys, x, id);
    }
  }

  lemma ReportMoves(kind: Kind, sys: System, x: string, id: string)
    ensures Moves(kind, sys, sys.(flapping := sys.flapping - {x}), Report(x), id)
  {
  }

  /** At every point of a run, for every ID: a process is started exactly by the events that
      start one, as the newest and not stopped, and a running one goes exactly with its own
      exit; the decisions that count against the budget are exactly those since the tracker
      last started anew, which automatic starts do not do; and the ID is flapping exactly
      from when its spent budget is marked until any other status is written. */
  lemma {:induction false} EventsExactly(kind: Kind, policies: string -> Policy, events: seq<Event>, e: Event, id: string)
    ensures Moves(kind, Run(kind, policies, events), Run(kind, policies, events + [e]), e, id)
  {
    RunAppend(kind, policies, events, e);
    RunKeeps(kind, policies, events);
    var sys := Run(kind, policies, events);
    hide Run, Inv, Step, Moves;
    match e {
      case Start(other, spawns) => StartMoves(kind, policies, sys, other, spawns, id);
      case Stop(other) => StopMoves(kind, policies, sys, other, id);
      case Exit(process, failed) => ExitMoves(kind, policies, sys, process, failed, id);
      case Note(process) => NoteMoves(kind, policies, sys, process, id);
      case Settle(process, enabled, now) => SettleMoves(kind, policies, sys, process, enabled, now, id);
      case Fire(other, enabled, spawns) => FireMoves(kind, policies, sys, other, enabled, spawns, id);
      case Decide(other, enabled, now) => DecideMoves(kind, policies, sys, other, enabled, now, id);
      case Clear(other) => ClearMoves(kind, policies, sys, other, id);
      case Resume(other, spawns) => ResumeMoves(kind, policies, sys, other, spawns, id);
      case _ => StatusMoves(kind, policies, sys, e, id);
    }
  }

  // ---- work to come ----

  /** The pending task that an event carries out. */
  function Carries(e: Event): Option<Task> {
    match e
    case Fire(id, _, _) => Some(Restart(id))
    case Decide(id, _, _) => Some(Again(id))
    case Delay(id) => Some(Backoff(id))
    case Flag(id) => Some(Flap(id))
    case Unflap(id, _) => Some(Retry(id))
    case Clear(id) => Some(Reset(id))
    case Renewed(id) => Some(Renew(id))
    case Resume(id, _) => Some(Relaunch(id))
    case Told(id) => Some(Tell(id))
    case _ => None
  }

  /** After a decision: a backoff if the window still grants a restart, and if not, a relay is
      to be marked as flapping and a stream is left alone. */
  function Verdict(kind: Kind, policy: Policy, times: seq<int>, id: string): multiset<Task>
    requires times != []
  {
    if FixedWindow.Granted(times, policy.period, policy.limit) then multiset{Backoff(id)}
    else if kind == Relays then multiset{Flap(id)} else multiset{}
  }

  /** What an event leaves to be done. */
  function Schedules(kind: Kind, policies: string -> Policy, sys: System, e: Event): multiset<Task> {
    match e
    case Start(id, spawns) => if spawns && id !in sys.jobs then multiset{Tell(id)} else multiset{}
    case Stop(id) => if id in sys.jobs then multiset{Tell(id)} else multiset{}
    case Settle(p, _, now) =>
      if p in sys.deciding && Counts(kind, sys, e, sys.deciding[p].id)
      then Verdict(kind, policies(sys.deciding[p].id), HitsOf(sys.hits, sys.deciding[p].id) + [now], sys.deciding[p].id) else multiset{}
    case Decide(id, enabled, now) => if enabled then Verdict(kind, policies(id), HitsOf(sys.hits, id) + [now], id) else multiset{}
    case Delay(id) => multiset{Restart(id)}
    case Fire(id, enabled, spawns) =>
      if !enabled then multiset{}
      else if spawns && id !in sys.jobs then multiset{Tell(id)}
      else if kind == Streams then multiset{Again(id)} else multiset{}
    case Flag(id) => multiset{Retry(id)}
    case Unflap(id, enabled) => if enabled && id in sys.flapping then multiset{Reset(id)} else multiset{}
    case Clear(id) => if id in sys.jobs then multiset{} else multiset{Renew(id)}
    case Renewed(id) => multiset{Relaunch(id)}
    case Resume(id, spawns) => if spawns && id !in sys.jobs then multiset{Tell(id)} else multiset{Flap(id)}
    case _ => multiset{}
  }

  lemma SettlePending(kind: Kind, policies: string -> Policy, sys: System, p: nat, enabled: bool, now: int)
    ensures SettleStep(kind, policies, sys, p, enabled, now).pending ==
            if p in sys.deciding && Counts(kind, sys, Settle(p, enabled, now), sys.deciding[p].id)
            then Tally(kind, policies(sys.deciding[p].id), sys.(deciding := sys.deciding - {p}), sys.deciding[p].id, now).pending
            else sys.pending
  {
    hide Tally;
  }

  lemma SettleTasks(kind: Kind, policies: string -> Policy, events: seq<Event>, p: nat, enabled: bool, now: int)
    ensures var sys := Run(kind, policies, events);
            SettleStep(kind, policies, sys, p, enabled, now).pending ==
            sys.pending + Schedules(kind, policies, sys, Settle(p, enabled, now))
  {
    var sys := Run(kind, policies, events);
    hide Run, Tally, Verdict, HitsOf, SettleStep, Counts;
    SettlePending(kind, policies, sys, p, enabled, now);
    if p in sys.deciding {
      TallyTasks(kind, policies, events, sys.deciding[p].id, now);
      SettledTally(kind, policies(sys.deciding[p].id), sys, sys.deciding[p].id, now, sys.deciding - {p}, "");
    }
  }

  lemma TallyTasks(kind: Kind, policies: string -> Policy, events: seq<Event>, id: string, now: int)
    ensures var sys := Run(kind, policies, events);
            Tally(kind, policies(id), sys, id, now).pending ==
            sys.pending + Verdict(kind, policies(id), HitsOf(sys.hits, id) + [now], id)
  {
    hide Run, Tally, FixedWindow.Granted, HitsOf;
    CountGrants(kind, policies, events, id, now);
  }

  lemma DecideTasks(kind: Kind, policies: string -> Policy, events: seq<Event>, id: string, enabled: bool, now: int)
    requires Again(id) in Run(kind, policies, events).pending
    ensures var sys := Run(kind, policies, events);
            Step(kind, policies, sys, Decide(id, enabled, now)).pending ==
            sys.pending - multiset{Again(id)} + Schedules(kind, policies, sys, Decide(id, enabled, now))
  {
    var sys := Run(kind, policies, events);
    TallyTasks(kind, policies, events, id, now);
    TakenTally(kind, policies(id), sys, Again(id), id, now, Verdict(kind, policies(id), HitsOf(sys.hits, id) + [now], id));
    hide Run, Tally, Verdict, HitsOf;
  }

  lemma TakenTally(kind: Kind, policy: Policy, sys: System, task: Task, id: string, now: int, next: multiset<Task>)
    requires task in sys.pending && Tally(kind, policy, sys, id, now).pending == sys.pending + next
    ensures Tally(kind, policy, Take(sys, task), id, now).pending == sys.pending - multiset{task} + next
  {
    var w := FixedWindow.Hit(Tracker(sys.restarts, id), now, policy.period);
    var own := if w.count <= policy.limit then multiset{Backoff(id)} else if kind == Relays then multiset{Flap(id)} else multiset{};
    hide FixedWindow.Hit;
    forall t ensures own[t] == next[t] {
      assert (sys.pending + own)[t] == (sys.pending + next)[t];
    }
    assert own == next;
  }

  lemma MoveTasks(sys: System, e: Event)
    requires e.Delay? || e.Flag? || e.Unflap? || e.Renewed? || e.Told?
    requires Carries(e).value in sys.pending
    ensures StatusStep(sys, e).pending == sys.pending - multiset{Carries(e).value} + Schedules(Relays, _ => RELAY_POLICY, sys, e)
  {
  }

  lemma NothingCarried(kind: Kind, policies: string -> Policy, sys: System, e: Event)
    requires Carries(e).Some? && Carries(e).value !in sys.pending
    ensures Step(kind, policies, sys, e) == sys
  {
  }

  ghost predicate WorkMoves(kind: Kind, policies: string -> Policy, sys: System, sys': System, e: Event) {
    match Carries(e)
    case None => sys'.pending == sys.pending + Schedules(kind, policies, sys, e)
    case Some(task) =>
      if task in sys.pending then sys'.pending == sys.pending - multiset{task} + Schedules(kind, policies, sys, e)
      else sys' == sys
  }

  lemma StartWork(kind: Kind, policies: string -> Policy, sys: System, id: string, spawns: bool)
    ensures WorkMoves(kind, policies, sys, Step(kind, policies, sys, Start(id, spawns)), Start(id, spawns))
  {
    LaunchOne(sys, id, false, spawns, id);
    hide Launch, HitsOf;
  }

  lemma FireTasks(kind: Kind, policies: string -> Policy, sys: System, id: string, enabled: bool, spawns: bool)
    requires Restart(id) in sys.pending
    ensures Step(kind, policies, sys, Fire(id, enabled, spawns)).pending ==
            sys.pending - multiset{Restart(id)} +
              if !enabled then multiset{}
              else if spawns && id !in sys.jobs then multiset{Tell(id)}
              else if kind == Streams then multiset{Again(id)} else multiset{}
  {
    LaunchOne(Take(sys, Restart(id)), id, true, spawns, id);
    hide Launch, HitsOf;
  }

  lemma FireWork(kind: Kind, policies: string -> Policy, sys: System, id: string, enabled: bool, spawns: bool)
    ensures WorkMoves(kind, policies, sys, Step(kind, policies, sys, Fire(id, enabled, spawns)), Fire(id, enabled, spawns))
  {
    hide Step;
    if Restart(id) in sys.pending {
      FireTasks(kind, policies, sys, id, enabled, spawns);
    } else {
      NothingCarried(kind, policies, sys, Fire(id, enabled, spawns));
    }
  }

  lemma ResumeTasks(kind: Kind, policies: string -> Policy, sys: System, id: string, spawns: bool)
    requires Relaunch(id) in sys.pending
    ensures Step(kind, policies, sys, Resume(id, spawns)).pending ==
            sys.pending - multiset{Relaunch(id)} + if spawns && id !in sys.jobs then multiset{Tell(id)} else multiset{Flap(id)}
  {
    LaunchOne(Take(sys, Relaunch(id)), id, true, spawns, id);
    hide Launch, HitsOf;
  }

  lemma ResumeWork(kind: Kind, policies: string -> Policy, sys: System, id: string, spawns: bool)
    ensures WorkMoves(kind, policies, sys, Step(kind, policies, sys, Resume(id, spawns)), Resume(id, spawns))
  {
    hide Step;
    if Relaunch(id) in sys.pending {
      ResumeTasks(kind, policies, sys, id, spawns);
    } else {
      NothingCarried(kind, policies, sys, Resume(id, spawns));
    }
  }

  lemma StopWork(kind: Kind, policies: string -> Policy, sys: System, id: string)
    ensures WorkMoves(kind, policies, sys, Step(kind, policies, sys, Stop(id)), Stop(id))
  {
  }

  lemma NoteWork(kind: Kind, policies: string -> Policy, sys: System, p: nat)
    ensures WorkMoves(kind, policies, sys, Step(kind, policies, sys, Note(p)), Note(p))
  {
  }

  lemma ClearWork(kind: Kind, policies: string -> Policy, sys: System, id: string)
    ensures WorkMoves(kind, policies, sys, Step(kind, policies, sys, Clear(id)), Clear(id))
  {
    ClearIs(kind, policies, sys, id);
    if Reset(id) in sys.pending { ClearGives(sys, id); }
    hide Step, ClearStep;
  }

  lemma ExitWork(kind: Kind, policies: string -> Policy, sys: System, p: nat, failed: bool)
    requires Inv(kind, policies, sys)
    ensures WorkMoves(kind, policies, sys, Step(kind, policies, sys, Exit(p, failed)), Exit(p, failed))
  {
    ExitOne(kind, policies, sys, p, failed, "");
    hide ExitStep, Inv;
  }

  lemma StatusWork(kind: Kind, policies: string -> Policy, sys: System, e: Event)
    requires e.Delay? || e.Flag? || e.Unflap? || e.Renewed? || e.Told? || e.Report?
    ensures WorkMoves(kind, policies, sys, Step(kind, policies, sys, e), e)
  {
    if e.Report? {
      ReportTasks(sys, e);
    } else if Carries(e).value in sys.pending {
      MoveTasks(sys, e);
    } else {
      NothingCarried(kind, policies, sys, e);
    }
    hide StatusStep;
  }

  lemma DecideWork(kind: Kind, policies: string -> Policy, events: seq<Event>, id: string, enabled: bool, now: int)
    ensures var sys := Run(kind, policies, events);
            WorkMoves(kind, policies, sys, Step(kind, policies, sys, Decide(id, enabled, now)), Decide(id, enabled, now))
  {
    var sys := Run(kind, policies, events);
    hide Run, Schedules, Step;
    if Again(id) in sys.pending {
      DecideTasks(kind, policies, events, id, enabled, now);
    } else {
      NothingCarried(kind, policies, sys, Decide(id, enabled, now));
    }
  }

  lemma SettleWork(kind: Kind, policies: string -> Policy, events: seq<Event>, p: nat, enabled: bool, now: int)
    ensures var sys := Run(kind, policies, events);
            WorkMoves(kind, policies, sys, Step(kind, policies, sys, Settle(p, enabled, now)), Settle(p, enabled, now))
  {
    hide Run, Schedules, SettleStep;
    SettleTasks(kind, policies, events, p, enabled, now);
  }

  /** An event carries out its task and leaves what follows; one whose task is not pending
      does nothing. */
  lemma {:induction false} WorkExactly(kind: Kind, policies: string -> Policy, events: seq<Event>, e: Event)
    ensures WorkMoves(kind, policies, Run(kind, policies, events), Run(kind, policies, events + [e]), e)
  {
    RunAppend(kind, policies, events, e);
    RunKeeps(kind, policies, events);
    var sys := Run(kind, policies, events);
    hide Run, Inv, Step, WorkMoves;
    match e {
      case Stop(id) => StopWork(kind, policies, sys, id);
      case Exit(process, failed) => ExitWork(kind, policies, sys, process, failed);
      case Note(process) => NoteWork(kind, policies, sys, process);
      case Settle(process, enabled, now) => SettleWork(kind, policies, events, process, enabled, now);
      case Decide(id, enabled, now) => DecideWork(kind, policies, events, id, enabled, now);
      case Clear(id) => ClearWork(kind, policies, sys, id);
      case Start(id, spawns) => StartWork(kind, policies, sys, id, spawns);
      case Fire(id, enabled, spawns) => FireWork(kind, policies, sys, id, enabled, spawns);
      case Resume(id, spawns) => ResumeWork(kind, policies, sys, id, spawns);
      case _ => StatusWork(kind, policies, sys, e);
    }
  }

  lemma ReportTasks(sys: System, e: Event)
    requires e.Report?
    ensures StatusStep(sys, e).pending == sys.pending
  {
  }

  // ---- exits ----

  lemma SettleDecides(kind: Kind, policies: string -> Policy, sys: System, p: nat, enabled: bool, now: int)
    ensures SettleStep(kind, policies, sys, p, enabled, now).deciding ==
            if p in sys.deciding && sys.deciding[p].noted then sys.deciding - {p} else sys.deciding
    ensures !(p in sys.deciding && sys.deciding[p].noted) ==> SettleStep(kind, policies, sys, p, enabled, now) == sys
  {
  }

  lemma LaunchDecides(sys: System, id: string, restarted: bool, spawns: bool)
    ensures Launch(sys, id, restarted, spawns).0.deciding == sys.deciding
  {
  }

  lemma MoveOne(sys: System, task: Task, next: multiset<Task>, flapping: set<string>)
    ensures Move(sys, task, next, flapping).deciding == sys.deciding
  {
  }

  lemma MoveDecides(sys: System, e: Event)
    ensures StatusStep(sys, e).deciding == sys.deciding
  {
    hide Move;
    match e {
      case Delay(x) => MoveOne(sys, Backoff(x), multiset{Restart(x)}, sys.flapping - {x});
      case Flag(x) => MoveOne(sys, Flap(x), multiset{Retry(x)}, sys.flapping + {x});
      case Unflap(x, enabled) => MoveOne(sys, Retry(x), if enabled && x in sys.flapping then multiset{Reset(x)} else multiset{}, sys.flapping);
      case Renewed(x) => MoveOne(sys, Renew(x), multiset{Relaunch(x)}, sys.flapping - {x});
      case Told(x) => MoveOne(sys, Tell(x), multiset{}, sys.flapping - {x});
      case _ =>
    }
  }

  lemma DecideDecides(kind: Kind, policies: string -> Policy, sys: System, id: string, enabled: bool, now: int)
    ensures Step(kind, policies, sys, Decide(id, enabled, now)).deciding == sys.deciding
  {
    TallyOne(kind, policies(id), Take(sys, Again(id)), id, now, id);
    hide Tally;
  }

  lemma ClearDecides(sys: System, id: string)
    ensures ClearStep(sys, id).deciding == sys.deciding
  {
    if Reset(id) in sys.pending { ClearGives(sys, id); }
  }

  lemma StopDecides(sys: System, id: string)
    ensures StopStep(sys, id).deciding == sys.deciding
  {
  }

  lemma OnlyExitsOpen(kind: Kind, policies: string -> Policy, sys: System, e: Event)
    requires !e.Exit? && !e.Note? && !e.Settle?
    ensures Step(kind, policies, sys, e).deciding == sys.deciding
  {
    match e {
      case Decide(id, enabled, now) => DecideDecides(kind, policies, sys, id, enabled, now);
      case Start(id, spawns) => LaunchDecides(sys, id, false, spawns);
      case Stop(id) => StopDecides(sys, id);
      case Fire(id, _, spawns) => LaunchDecides(Take(sys, Restart(id)), id, true, spawns);
      case Clear(id) => ClearDecides(sys, id);
      case Resume(id, spawns) => LaunchDecides(Take(sys, Relaunch(id)), id, true, spawns);
      case _ => MoveDecides(sys, e);
    }
    hide Tally, StatusStep, Launch, ClearStep, StopStep, ExitStep, SettleStep, NoteStep;
  }

  /** The exit of a running process opens a decision, which remembers whether an operator had
      stopped it; the status is written, and then the decision is made, once. */
  lemma {:induction false} ExitsExactly(kind: Kind, policies: string -> Policy, events: seq<Event>, e: Event)
    ensures var sys, sys' := Run(kind, policies, events), Run(kind, policies, events + [e]);
            && (e.Exit? && e.process < |sys.owners| && e.process !in sys.exited ==>
                  sys'.deciding == sys.deciding[e.process := Wait(sys.owners[e.process], e.process in sys.marked, e.failed, false)])
            && (e.Exit? && !(e.process < |sys.owners| && e.process !in sys.exited) ==> sys' == sys)
            && (e.Note? && e.process in sys.deciding ==>
                  sys'.deciding == sys.deciding[e.process := sys.deciding[e.process].(noted := true)])
            && (e.Settle? && e.process in sys.deciding && sys.deciding[e.process].noted ==> sys'.deciding == sys.deciding - {e.process})
            && (e.Settle? && !(e.process in sys.deciding && sys.deciding[e.process].noted) ==> sys' == sys)
            && (!e.Exit? && !e.Note? && !e.Settle? ==> sys'.deciding == sys.deciding)
  {
    RunAppend(kind, policies, events, e);
    RunKeeps(kind, policies, events);
    var sys := Run(kind, policies, events);
    hide Run, Inv, Tally, HitsOf, SettleStep;
    if e.Exit? {
      if e.process < |sys.owners| && e.process !in sys.exited {
        OwnJob(kind, policies, sys, e.process);
        hide ExitStep;
        ExitOne(kind, policies, sys, e.process, e.failed, sys.owners[e.process]);
      }
    } else if e.Settle? {
      SettleDecides(kind, policies, sys, e.process, e.enabled, e.now);
    } else if !e.Note? {
      OnlyExitsOpen(kind, policies, sys, e);
    }
  }
}
