/**
 * The bot registry and the task dispatcher: bots are leased to one dispatch at a
 * time, and the counters on the bot and task rows are conserved through every
 * interleaving of dispatches. A bot or a task is named by the index of its row.
 */
module Dispatcher {
  import opened Prelude

  type JobId = string
  type ExecutionId = string

  datatype Entry = Entry(botId: nat, executionId: ExecutionId, connected: bool, currentJob: Option<JobId>)

  datatype BotRow = BotRow(claimed: nat, completed: nat, failed: nat)

  datatype TaskStatus = Pending | ClaimedBy(bot: nat) | Completed | FailedTask

  datatype TaskRow = TaskRow(status: TaskStatus, attemptCount: nat)

  /** Where a dispatch stands; it leases its bot from Acquired to Settled. Ended found no bot. */
  datatype Phase =
    | Polling
    | Acquired(bot: nat)
    | TaskClaimed(bot: nat)
    | Running(bot: nat)
    | Succeeded(bot: nat)
    | Failed(bot: nat)
    | Settled(bot: nat, ok: bool)
    | Released(bot: nat, ok: bool)
    | Ended

  datatype Dispatch = Dispatch(jobId: JobId, taskId: nat, executionId: ExecutionId, phase: Phase) {
    predicate Leases(b: nat) {
      !phase.Polling? && !phase.Released? && !phase.Ended? && phase.bot == b
    }

    /** The task row was written with this outcome. */
    predicate FinishedAs(ok: bool) {
      (if ok then phase.Succeeded? else phase.Failed?) || ((phase.Settled? || phase.Released?) && phase.ok == ok)
    }

    /** The task row was claimed for bot b. */
    predicate ClaimedFor(b: nat) {
      !phase.Polling? && !phase.Acquired? && !phase.Ended? && phase.bot == b
    }

    /** Counted on bot b as completed or failed. */
    predicate SettledAs(b: nat, ok: bool) {
      (phase.Settled? || phase.Released?) && phase.bot == b && phase.ok == ok
    }

    /** Counted as claimed on the bot row but not yet as completed or failed. */
    predicate InFlightOn(b: nat) {
      (phase.Running? || phase.Succeeded? || phase.Failed?) && phase.bot == b
    }
  }

  /** inserted remembers each task row as it was inserted, by whatever code did so. */
  datatype State = State(
    registry: seq<Entry>,
    bots: seq<BotRow>,
    tasks: seq<TaskRow>,
    inserted: seq<TaskRow>,
    dispatches: seq<Dispatch>)

  const INITIAL := State([], [], [], [], [])

  datatype Event =
    | InsertTask(row: TaskRow)
    | SpawnBot(execution: ExecutionId)
    | UnregisterBot(bot: nat)
    | SetConnected(bot: nat, connected: bool)
    | Start(jobId: JobId, taskId: nat, executionId: ExecutionId)
    | Poll(d: nat)
    | GiveUp(d: nat)
    | ClaimTask(d: nat)
    | ClaimBot(d: nat)
    | Finish(d: nat, ok: bool)
    | Settle(d: nat)
    | Release(d: nat)

  // ----- The registry -------------------------------------------------------

  predicate Idle(e: Entry, execution: ExecutionId) {
    e.executionId == execution && e.connected && e.currentJob.None?
  }

  /** The first idle bot in registration order. */
  function FindIdle(registry: seq<Entry>, execution: ExecutionId): (found: Option<nat>)
    ensures found.Some? ==> found.value < |registry| && Idle(registry[found.value], execution)
    ensures forall i :: 0 <= i < (if found.Some? then found.value else |registry|) ==> !Idle(registry[i], execution)
  {
    if registry == [] then None
    else
      var before := FindIdle(registry[..|registry| - 1], execution);
      if before.Some? then before
      else if Idle(registry[|registry| - 1], execution) then Some(|registry| - 1)
      else None
  }

  function IndexOf(registry: seq<Entry>, bot: nat): (found: Option<nat>)
    ensures found.Some? ==> found.value < |registry| && registry[found.value].botId == bot
    ensures found.None? ==> forall i :: 0 <= i < |registry| ==> registry[i].botId != bot
  {
    if registry == [] then None
    else if registry[|registry| - 1].botId == bot then Some(|registry| - 1)
    else IndexOf(registry[..|registry| - 1], bot)
  }

  function SetJob(registry: seq<Entry>, bot: nat, job: Option<JobId>): seq<Entry> {
    match IndexOf(registry, bot)
    case None => registry
    case Some(i) => registry[i := registry[i].(currentJob := job)]
  }

  function Without(registry: seq<Entry>, bot: nat): seq<Entry> {
    match IndexOf(registry, bot)
    case None => registry
    case Some(i) => registry[..i] + registry[i + 1..]
  }

  // ----- Steps --------------------------------------------------------------

  function SetPhase(s: State, d: nat, phase: Phase): State
    requires d < |s.dispatches|
  {
    s.(dispatches := s.dispatches[d := s.dispatches[d].(phase := phase)])
  }

  function PollStep(s: State, d: nat): State
    requires d < |s.dispatches|
  {
    var dispatch := s.dispatches[d];
    if !dispatch.phase.Polling? then s
    else
      match FindIdle(s.registry, dispatch.executionId)
      case None => s
      case Some(i) =>
        SetPhase(s, d, Acquired(s.registry[i].botId))
        .(registry := s.registry[i := s.registry[i].(currentJob := Some(dispatch.jobId))])
  }

  function ClaimTaskStep(s: State, d: nat): State
    requires d < |s.dispatches|
  {
    var dispatch := s.dispatches[d];
    if !dispatch.phase.Acquired? || dispatch.taskId >= |s.tasks| then s
    else
      var b, t := dispatch.phase.bot, dispatch.taskId;
      SetPhase(s, d, TaskClaimed(b))
      .(tasks := s.tasks[t := TaskRow(ClaimedBy(b), s.tasks[t].attemptCount + 1)])
  }

  function ClaimBotStep(s: State, d: nat): State
    requires d < |s.dispatches|
  {
    var phase := s.dispatches[d].phase;
    if !phase.TaskClaimed? || phase.bot >= |s.bots| then s
    else
      var row := s.bots[phase.bot];
      SetPhase(s, d, Running(phase.bot)).(bots := s.bots[phase.bot := row.(claimed := row.claimed + 1)])
  }

  /** The task row is written first, the bot row by Settle. */
  function FinishStep(s: State, d: nat, ok: bool): State
    requires d < |s.dispatches|
  {
    var dispatch := s.dispatches[d];
    if !dispatch.phase.Running? || dispatch.taskId >= |s.tasks| then s
    else
      var b, t := dispatch.phase.bot, dispatch.taskId;
      SetPhase(s, d, if ok then Succeeded(b) else Failed(b))
      .(tasks := s.tasks[t := s.tasks[t].(status := if ok then Completed else FailedTask)])
  }

  function SettleStep(s: State, d: nat): State
    requires d < |s.dispatches|
  {
    var phase := s.dispatches[d].phase;
    if !(phase.Succeeded? || phase.Failed?) || phase.bot >= |s.bots| then s
    else
      var row := s.bots[phase.bot];
      SetPhase(s, d, Settled(phase.bot, phase.Succeeded?))
      .(bots := s.bots[phase.bot :=
          if phase.Succeeded? then row.(completed := row.completed + 1)
          else row.(failed := row.failed + 1)])
  }

  function ReleaseStep(s: State, d: nat): State
    requires d < |s.dispatches|
  {
    var phase := s.dispatches[d].phase;
    if !phase.Settled? then s
    else SetPhase(s, d, Released(phase.bot, phase.ok)).(registry := SetJob(s.registry, phase.bot, None))
  }

  function Step(s: State, e: Event): State {
    match e
    case InsertTask(row) => s.(tasks := s.tasks + [row], inserted := s.inserted + [row])
    case SpawnBot(execution) =>
      s.(bots := s.bots + [BotRow(0, 0, 0)],
         registry := s.registry + [Entry(|s.bots|, execution, false, None)])
    case UnregisterBot(b) => s.(registry := Without(s.registry, b))
    case SetConnected(b, connected) =>
      (match IndexOf(s.registry, b)
       case None => s
       case Some(i) => s.(registry := s.registry[i := s.registry[i].(connected := connected)]))
    case Start(j, t, execution) =>
      if t < |s.tasks| then s.(dispatches := s.dispatches + [Dispatch(j, t, execution, Polling)]) else s
    case Poll(d) => if d < |s.dispatches| then PollStep(s, d) else s
    case GiveUp(d) =>
      if d < |s.dispatches| && s.dispatches[d].phase.Polling? then SetPhase(s, d, Ended) else s
    case ClaimTask(d) => if d < |s.dispatches| then ClaimTaskStep(s, d) else s
    case ClaimBot(d) => if d < |s.dispatches| then ClaimBotStep(s, d) else s
    case Finish(d, ok) => if d < |s.dispatches| then FinishStep(s, d, ok) else s
    case Settle(d) => if d < |s.dispatches| then SettleStep(s, d) else s
    case Release(d) => if d < |s.dispatches| then ReleaseStep(s, d) else s
  }

  function Run(es: seq<Event>): State {
    if es == [] then INITIAL else Step(Run(es[..|es| - 1]), es[|es| - 1])
  }

  // ----- Leases -------------------------------------------------------------

  ghost predicate LeasesExclusive(s: State) {
    forall d, x, b: nat :: 0 <= d < x < |s.dispatches| && s.dispatches[d].Leases(b) ==> !s.dispatches[x].Leases(b)
  }

  ghost predicate Leased(s: State, b: nat) {
    exists d :: 0 <= d < |s.dispatches| && s.dispatches[d].Leases(b)
  }

  /** A registered bot names a job exactly while some dispatch leases it. */
  ghost predicate RegistryMatches(s: State) {
    forall i :: 0 <= i < |s.registry| ==> (s.registry[i].currentJob.Some? <==> Leased(s, s.registry[i].botId))
  }

  ghost predicate RegistrySound(s: State) {
    && (forall i :: 0 <= i < |s.registry| ==> s.registry[i].botId < |s.bots|)
    && (forall i, j :: 0 <= i < j < |s.registry| ==> s.registry[i].botId != s.registry[j].botId)
    && (forall d, b: nat :: 0 <= d < |s.dispatches| && s.dispatches[d].Leases(b) ==> b < |s.bots|)
    && (forall d, b: nat :: 0 <= d < |s.dispatches| && s.dispatches[d].ClaimedFor(b) ==> b < |s.bots|)
    && (forall d :: 0 <= d < |s.dispatches| ==> s.dispatches[d].taskId < |s.tasks|)
  }

  ghost predicate LeaseInv(s: State) {
    LeasesExclusive(s) && RegistryMatches(s) && RegistrySound(s)
  }

  /** A phase change that keeps the lease keeps every lease fact. */
  lemma SameLease(s: State, d: nat, phase: Phase)
    requires LeaseInv(s) && d < |s.dispatches|
    requires forall b :: s.dispatches[d].Leases(b) <==> s.dispatches[d].(phase := phase).Leases(b)
    requires forall b :: s.dispatches[d].(phase := phase).ClaimedFor(b) ==> s.dispatches[d].Leases(b)
    ensures LeaseInv(SetPhase(s, d, phase))
  {
    var s' := SetPhase(s, d, phase);
    forall b
      ensures Leased(s', b) <==> Leased(s, b)
    {
      if x :| 0 <= x < |s.dispatches| && s.dispatches[x].Leases(b) {
        assert s'.dispatches[x].Leases(b);
      }
      if x :| 0 <= x < |s'.dispatches| && s'.dispatches[x].Leases(b) {
        assert s.dispatches[x].Leases(b);
      }
    }
  }

  lemma PollKeepsLeases(s: State, d: nat)
    requires LeaseInv(s) && d < |s.dispatches|
    ensures LeaseInv(PollStep(s, d))
  {
    var s' := PollStep(s, d);
    var dispatch := s.dispatches[d];
    if dispatch.phase.Polling? {
      var found := FindIdle(s.registry, dispatch.executionId);
      if found.Some? {
        var bot := s.registry[found.value].botId;
        assert !Leased(s, bot);
        assert s'.dispatches[d].Leases(bot);
        forall b | b != bot
          ensures Leased(s', b) <==> Leased(s, b)
        {
          if x :| 0 <= x < |s.dispatches| && s.dispatches[x].Leases(b) {
            assert s'.dispatches[x].Leases(b);
          }
          if x :| 0 <= x < |s'.dispatches| && s'.dispatches[x].Leases(b) {
            assert s.dispatches[x].Leases(b);
          }
        }
        forall i | 0 <= i < |s'.registry|
          ensures s'.registry[i].currentJob.Some? <==> Leased(s', s'.registry[i].botId)
        {
          if i != found.value { assert s'.registry[i] == s.registry[i]; }
        }
      }
    }
  }

  lemma ReleaseKeepsLeases(s: State, d: nat)
    requires LeaseInv(s) && d < |s.dispatches|
    ensures LeaseInv(ReleaseStep(s, d))
  {
    var s' := ReleaseStep(s, d);
    if s.dispatches[d].phase.Settled? {
      var bot := s.dispatches[d].phase.bot;
      assert s.dispatches[d].Leases(bot);
      forall b | b != bot
        ensures Leased(s', b) <==> Leased(s, b)
      {
        if x :| 0 <= x < |s.dispatches| && s.dispatches[x].Leases(b) {
          assert s'.dispatches[x].Leases(b);
        }
        if x :| 0 <= x < |s'.dispatches| && s'.dispatches[x].Leases(b) {
          assert s.dispatches[x].Leases(b);
        }
      }
      assert !Leased(s', bot);
      forall i | 0 <= i < |s'.registry|
        ensures s'.registry[i].currentJob.Some? <==> Leased(s', s'.registry[i].botId)
      {
        assert s'.registry[i].botId == s.registry[i].botId;
      }
    }
  }

  lemma SameDispatches(s: State, s': State)
    requires s'.dispatches == s.dispatches
    ensures forall b :: Leased(s', b) == Leased(s, b)
  {
  }

  lemma StartKeepsLeases(s: State, d: Dispatch)
    requires LeaseInv(s) && d.phase.Polling? && d.taskId < |s.tasks|
    ensures LeaseInv(s.(dispatches := s.dispatches + [d]))
  {
    var s' := s.(dispatches := s.dispatches + [d]);
    forall b
      ensures Leased(s', b) <==> Leased(s, b)
    {
      if x :| 0 <= x < |s.dispatches| && s.dispatches[x].Leases(b) {
        assert s'.dispatches[x].Leases(b);
      }
      if x :| 0 <= x < |s'.dispatches| && s'.dispatches[x].Leases(b) {
        assert s.dispatches[x].Leases(b);
      }
    }
  }

  lemma SpawnKeepsLeases(s: State, execution: ExecutionId)
    requires LeaseInv(s)
    ensures LeaseInv(Step(s, SpawnBot(execution)))
  {
    var s' := Step(s, SpawnBot(execution));
    SameDispatches(s, s');
    assert !Leased(s, |s.bots|);
  }

  /** Rows change, leases do not. */
  lemma RowsDoNotMatter(s: State, bots: seq<BotRow>, tasks: seq<TaskRow>, inserted: seq<TaskRow>)
    requires LeaseInv(s) && |bots| == |s.bots| && |tasks| >= |s.tasks|
    ensures LeaseInv(s.(bots := bots, tasks := tasks, inserted := inserted))
  {
    SameDispatches(s, s.(bots := bots, tasks := tasks, inserted := inserted));
  }

  lemma StepKeepsLeases(s: State, e: Event)
    requires LeaseInv(s)
    ensures LeaseInv(Step(s, e))
  {
    hide LeasesExclusive, RegistryMatches, RegistrySound;
    var s' := Step(s, e);
    match e
    case InsertTask(_) => RowsDoNotMatter(s, s.bots, s'.tasks, s'.inserted);
    case SpawnBot(execution) => SpawnKeepsLeases(s, execution);
    case UnregisterBot(b) => RegistryShrinks(s, b);
    case SetConnected(b, connected) => ConnectionKeepsLeases(s, b, connected);
    case Start(j, t, execution) =>
      if t < |s.tasks| { StartKeepsLeases(s, Dispatch(j, t, execution, Polling)); }
    case Poll(d) => if d < |s.dispatches| { PollKeepsLeases(s, d); }
    case GiveUp(d) =>
      if d < |s.dispatches| && s.dispatches[d].phase.Polling? { SameLease(s, d, Ended); }
    case ClaimTask(d) =>
      if d < |s.dispatches| && s' != s {
        SameLease(s, d, TaskClaimed(s.dispatches[d].phase.bot));
        RowsDoNotMatter(SetPhase(s, d, TaskClaimed(s.dispatches[d].phase.bot)), s.bots, s'.tasks, s.inserted);
      }
    case ClaimBot(d) =>
      if d < |s.dispatches| && s' != s {
        SameLease(s, d, Running(s.dispatches[d].phase.bot));
        RowsDoNotMatter(SetPhase(s, d, Running(s.dispatches[d].phase.bot)), s'.bots, s.tasks, s.inserted);
      }
    case Finish(d, ok) =>
      if d < |s.dispatches| && s' != s {
        SameLease(s, d, s'.dispatches[d].phase);
        RowsDoNotMatter(SetPhase(s, d, s'.dispatches[d].phase), s.bots, s'.tasks, s.inserted);
      }
    case Settle(d) =>
      if d < |s.dispatches| && s' != s {
        SameLease(s, d, s'.dispatches[d].phase);
        RowsDoNotMatter(SetPhase(s, d, s'.dispatches[d].phase), s'.bots, s.tasks, s.inserted);
      }
    case Release(d) => if d < |s.dispatches| { ReleaseKeepsLeases(s, d); }
  }

  lemma RegistryShrinks(s: State, b: nat)
    requires LeaseInv(s)
    ensures LeaseInv(Step(s, UnregisterBot(b)))
  {
    var s' := Step(s, UnregisterBot(b));
    SameDispatches(s, s');
    var found := IndexOf(s.registry, b);
    if found.Some? {
      forall i | 0 <= i < |s'.registry|
        ensures s'.registry[i] == s.registry[if i < found.value then i else i + 1]
      {
      }
    }
  }

  lemma ConnectionKeepsLeases(s: State, b: nat, connected: bool)
    requires LeaseInv(s)
    ensures LeaseInv(Step(s, SetConnected(b, connected)))
  {
    SameDispatches(s, Step(s, SetConnected(b, connected)));
  }

  /** A leased bot that is still registered names the job and the execution of its dispatch. */
  ghost predicate LeaseNamed(s: State, i: nat, d: nat)
    requires i < |s.registry| && d < |s.dispatches|
  {
    s.dispatches[d].Leases(s.registry[i].botId) ==>
      && s.registry[i].currentJob == Some(s.dispatches[d].jobId)
      && s.registry[i].executionId == s.dispatches[d].executionId
  }

  ghost predicate LeasesNamed(s: State) {
    forall i, d :: 0 <= i < |s.registry| && 0 <= d < |s.dispatches| ==> LeaseNamed(s, i, d)
  }

  lemma PollNamesLease(s: State, d: nat)
    requires LeaseInv(s) && LeasesNamed(s) && d < |s.dispatches|
    ensures LeasesNamed(PollStep(s, d))
  {
    hide RegistryMatches;
    var s' := PollStep(s, d);
    forall i, x | 0 <= i < |s'.registry| && 0 <= x < |s'.dispatches|
      ensures LeaseNamed(s', i, x)
    {
      assert LeaseNamed(s, i, x);
      var found := FindIdle(s.registry, s.dispatches[d].executionId);
      if s.dispatches[d].phase.Polling? && found.Some? && x != d && i == found.value {
        IdleIsUnleased(s, i, x);
      }
    }
  }

  lemma IdleIsUnleased(s: State, i: nat, x: nat)
    requires RegistryMatches(s) && i < |s.registry| && s.registry[i].currentJob.None? && x < |s.dispatches|
    ensures !s.dispatches[x].Leases(s.registry[i].botId)
  {
  }

  lemma ReleaseNamesLease(s: State, d: nat)
    requires LeaseInv(s) && LeasesNamed(s) && d < |s.dispatches|
    ensures LeasesNamed(ReleaseStep(s, d))
  {
    hide RegistryMatches;
    var s' := ReleaseStep(s, d);
    forall i, x | 0 <= i < |s'.registry| && 0 <= x < |s'.dispatches|
      ensures LeaseNamed(s', i, x)
    {
      assert LeaseNamed(s, i, x);
      if s.dispatches[d].phase.Settled? {
        assert s.dispatches[d].Leases(s.dispatches[d].phase.bot);
        if x < d { assert !s.dispatches[x].Leases(s.dispatches[d].phase.bot); }
      }
    }
  }

  /** The other steps move no lease and change no job of a bot. */
  lemma OtherStepsNameLeases(s: State, e: Event)
    requires LeaseInv(s) && LeasesNamed(s) && !e.Poll? && !e.Release? && !e.UnregisterBot?
    ensures LeasesNamed(Step(s, e))
  {
    hide LeasesExclusive, RegistryMatches, FindIdle, SetJob, Without;
    var s' := Step(s, e);
    forall i, x | 0 <= i < |s'.registry| && 0 <= x < |s'.dispatches|
      ensures LeaseNamed(s', i, x)
    {
      if i < |s.registry| && x < |s.dispatches| { assert LeaseNamed(s, i, x); }
    }
  }

  lemma UnregisterNamesLeases(s: State, b: nat)
    requires LeasesNamed(s)
    ensures LeasesNamed(Step(s, UnregisterBot(b)))
  {
    var s' := Step(s, UnregisterBot(b));
    var found := IndexOf(s.registry, b);
    forall i, x | 0 <= i < |s'.registry| && 0 <= x < |s'.dispatches|
      ensures LeaseNamed(s', i, x)
    {
      assert LeaseNamed(s, if found.None? || i < found.value then i else i + 1, x);
    }
  }

  lemma StepNamesLeases(s: State, e: Event)
    requires LeaseInv(s) && LeasesNamed(s)
    ensures LeasesNamed(Step(s, e))
  {
    hide LeaseInv, LeasesNamed, PollStep, ReleaseStep;
    match e
    case Poll(d) => if d < |s.dispatches| { PollNamesLease(s, d); }
    case Release(d) => if d < |s.dispatches| { ReleaseNamesLease(s, d); }
    case UnregisterBot(b) => UnregisterNamesLeases(s, b);
    case _ => OtherStepsNameLeases(s, e);
  }

  // ----- Counters -----------------------------------------------------------

  function FlightWeight(b: nat): Dispatch -> int {
    (d: Dispatch) => if d.InFlightOn(b) then 1 else 0
  }

  function SettledWeight(b: nat, ok: bool): Dispatch -> int {
    (d: Dispatch) => if d.SettledAs(b, ok) then 1 else 0
  }

  function BetweenClaims(d: Dispatch): int {
    if d.phase.TaskClaimed? then 1 else 0
  }

  function ClaimsOf(row: BotRow): int {
    row.claimed
  }

  function AttemptsOf(row: TaskRow): int {
    row.attemptCount
  }

  function InFlight(s: State, b: nat): int {
    SumBy(s.dispatches, FlightWeight(b))
  }

  /** The dispatches that bot b brought to this outcome. */
  function SettledCount(s: State, b: nat, ok: bool): int {
    SumBy(s.dispatches, SettledWeight(b, ok))
  }

  ghost predicate Conserved(s: State, b: nat)
    requires b < |s.bots|
  {
    && s.bots[b].claimed == s.bots[b].completed + s.bots[b].failed + InFlight(s, b)
    && s.bots[b].completed == SettledCount(s, b, true)
    && s.bots[b].failed == SettledCount(s, b, false)
  }

  ghost predicate BotsConserved(s: State) {
    forall b :: 0 <= b < |s.bots| ==> Conserved(s, b)
  }

  ghost predicate TotalsAgree(s: State) {
    SumBy(s.inserted, AttemptsOf) + SumBy(s.bots, ClaimsOf) + SumBy(s.dispatches, BetweenClaims)
    == SumBy(s.tasks, AttemptsOf)
  }

  ghost predicate ChangedAt<T>(before: seq<T>, after: seq<T>, i: nat) {
    i < |before| && |after| == |before| && after == before[i := after[i]]
  }

  /** How much a dispatch adds to the three counts of bot b: in flight, completed, failed. */
  function Weights(b: nat, d: Dispatch): (int, int, int) {
    (FlightWeight(b)(d), SettledWeight(b, true)(d), SettledWeight(b, false)(d))
  }

  /** A dispatch moves, and the row of bot b with it. */
  lemma MoveKeepsBot(s: State, s': State, d: nat, b: nat)
    requires b < |s.bots| == |s'.bots| && Conserved(s, b) && ChangedAt(s.dispatches, s'.dispatches, d)
    requires
      var row, row', w, w' := s.bots[b], s'.bots[b], Weights(b, s.dispatches[d]), Weights(b, s'.dispatches[d]);
      && row'.claimed - row.claimed == (w'.0 + w'.1 + w'.2) - (w.0 + w.1 + w.2)
      && row'.completed - row.completed == w'.1 - w.1
      && row'.failed - row.failed == w'.2 - w.2
    ensures Conserved(s', b)
  {
    hide SumBy, FlightWeight, SettledWeight;
    SumByUpdate(s.dispatches, FlightWeight(b), d, s'.dispatches[d]);
    SumByUpdate(s.dispatches, SettledWeight(b, true), d, s'.dispatches[d]);
    SumByUpdate(s.dispatches, SettledWeight(b, false), d, s'.dispatches[d]);
  }

  lemma StartKeepsBot(s: State, d: Dispatch, b: nat)
    requires b < |s.bots| && Conserved(s, b) && d.phase.Polling?
    ensures Conserved(s.(dispatches := s.dispatches + [d]), b)
  {
    hide SumBy;
    SumByAppend(s.dispatches, FlightWeight(b), d);
    SumByAppend(s.dispatches, SettledWeight(b, true), d);
    SumByAppend(s.dispatches, SettledWeight(b, false), d);
  }

  lemma StepKeepsBots(s: State, e: Event)
    requires LeaseInv(s) && BotsConserved(s)
    ensures BotsConserved(Step(s, e))
  {
    var s' := Step(s, e);
    forall b | 0 <= b < |s'.bots|
      ensures Conserved(s', b)
    {
      if e.SpawnBot? && b == |s.bots| {
        NothingInFlight(s, b);
      } else {
        StepKeepsBot(s, e, b);
      }
    }
  }

  lemma WriteKeepsBot(s: State, e: Event, b: nat)
    requires b < |s.bots| && Conserved(s, b)
    requires e.ClaimTask? || e.ClaimBot? || e.Finish? || e.Settle?
    ensures Conserved(Step(s, e), b)
  {
    hide Conserved, FindIdle, IndexOf, SetJob, Without;
    if Step(s, e) != s { MoveKeepsBot(s, Step(s, e), e.d, b); }
  }

  lemma StepKeepsBot(s: State, e: Event, b: nat)
    requires b < |s.bots| && Conserved(s, b)
    ensures Conserved(Step(s, e), b)
  {
    hide SumBy, FindIdle, IndexOf, SetJob, Without;
    var s' := Step(s, e);
    match e
    case InsertTask(_) =>
    case SpawnBot(_) =>
    case UnregisterBot(_) =>
    case SetConnected(_, _) =>
    case Start(j, t, execution) =>
      if t < |s.tasks| { StartKeepsBot(s, Dispatch(j, t, execution, Polling), b); }
    case Poll(d) => if s' != s { MoveKeepsBot(s, s', d, b); }
    case GiveUp(d) => if s' != s { MoveKeepsBot(s, s', d, b); }
    case Release(d) => if s' != s { MoveKeepsBot(s, s', d, b); }
    case _ => WriteKeepsBot(s, e, b);
  }

  lemma NothingInFlight(s: State, b: nat)
    requires LeaseInv(s) && b >= |s.bots|
    ensures InFlight(s, b) == 0
    ensures SettledCount(s, b, true) == 0 && SettledCount(s, b, false) == 0
  {
    forall i | 0 <= i < |s.dispatches|
      ensures FlightWeight(b)(s.dispatches[i]) == 0
      ensures SettledWeight(b, true)(s.dispatches[i]) == 0 && SettledWeight(b, false)(s.dispatches[i]) == 0
    {
      var d := s.dispatches[i];
      assert d.InFlightOn(b) ==> d.ClaimedFor(b);
      assert d.SettledAs(b, true) || d.SettledAs(b, false) ==> d.ClaimedFor(b);
    }
    SumByZero(s.dispatches, FlightWeight(b));
    SumByZero(s.dispatches, SettledWeight(b, true));
    SumByZero(s.dispatches, SettledWeight(b, false));
  }

  /** A dispatch moves without touching the rows. */
  lemma MoveKeepsTotals(s: State, s': State, d: nat)
    requires TotalsAgree(s) && s'.bots == s.bots && s'.tasks == s.tasks && s'.inserted == s.inserted
    requires ChangedAt(s.dispatches, s'.dispatches, d)
    requires BetweenClaims(s'.dispatches[d]) == BetweenClaims(s.dispatches[d])
    ensures TotalsAgree(s')
  {
    hide SumBy, BetweenClaims;
    SumByUpdate(s.dispatches, BetweenClaims, d, s'.dispatches[d]);
  }

  /** A dispatch moves and writes its bot row and its task row. */
  lemma WriteKeepsTotals(s: State, s': State, d: nat, b: nat, t: nat)
    requires TotalsAgree(s) && ChangedAt(s.dispatches, s'.dispatches, d)
    requires ChangedAt(s.bots, s'.bots, b) && ChangedAt(s.tasks, s'.tasks, t) && s'.inserted == s.inserted
    requires ClaimsOf(s'.bots[b]) - ClaimsOf(s.bots[b])
             + BetweenClaims(s'.dispatches[d]) - BetweenClaims(s.dispatches[d])
             == AttemptsOf(s'.tasks[t]) - AttemptsOf(s.tasks[t])
    ensures TotalsAgree(s')
  {
    hide SumBy, ClaimsOf, BetweenClaims, AttemptsOf;
    SumByUpdate(s.dispatches, BetweenClaims, d, s'.dispatches[d]);
    SumByUpdate(s.bots, ClaimsOf, b, s'.bots[b]);
    SumByUpdate(s.tasks, AttemptsOf, t, s'.tasks[t]);
  }

  lemma StepKeepsTotals(s: State, e: Event)
    requires LeaseInv(s) && TotalsAgree(s)
    ensures TotalsAgree(Step(s, e))
  {
    hide LeasesExclusive, RegistryMatches, SumBy, FindIdle, IndexOf, SetJob, Without;
    var s' := Step(s, e);
    match e
    case InsertTask(row) =>
      SumByAppend(s.tasks, AttemptsOf, row);
      SumByAppend(s.inserted, AttemptsOf, row);
    case SpawnBot(_) => SumByAppend(s.bots, ClaimsOf, BotRow(0, 0, 0));
    case UnregisterBot(_) =>
    case SetConnected(_, _) =>
    case Start(j, t, execution) =>
      SumByAppend(s.dispatches, BetweenClaims, Dispatch(j, t, execution, Polling));
    case Poll(d) => if s' != s { MoveKeepsTotals(s, s', d); }
    case GiveUp(d) => if s' != s { MoveKeepsTotals(s, s', d); }
    case Release(d) => if s' != s { MoveKeepsTotals(s, s', d); }
    case _ =>
      if s' != s {
        var d := s.dispatches[e.d];
        assert d.Leases(d.phase.bot);
        WriteKeepsTotals(s, s', e.d, d.phase.bot, d.taskId);
      }
  }

  // ----- Task rows ------------------------------------------------------------

  /** Some dispatch of task t accounts for the status of its row. */
  ghost predicate Explained(s: State, t: nat, status: TaskStatus) {
    match status
    case Pending => false
    case ClaimedBy(b) =>
      exists d :: 0 <= d < |s.dispatches| && s.dispatches[d].taskId == t && s.dispatches[d].ClaimedFor(b)
    case Completed =>
      exists d :: 0 <= d < |s.dispatches| && s.dispatches[d].taskId == t && s.dispatches[d].FinishedAs(true)
    case FailedTask =>
      exists d :: 0 <= d < |s.dispatches| && s.dispatches[d].taskId == t && s.dispatches[d].FinishedAs(false)
  }

  ghost predicate StatusesExplained(s: State) {
    && |s.inserted| == |s.tasks|
    && forall t :: 0 <= t < |s.tasks| ==>
         s.tasks[t].status == s.inserted[t].status || Explained(s, t, s.tasks[t].status)
  }

  /** What a dispatch has done stays done. */
  lemma DispatchMovesOn(s: State, e: Event, d: nat)
    requires d < |s.dispatches|
    ensures d < |Step(s, e).dispatches|
    ensures
      var now, next := s.dispatches[d], Step(s, e).dispatches[d];
      && next.taskId == now.taskId
      && (forall b :: now.ClaimedFor(b) ==> next.ClaimedFor(b))
      && (forall ok :: now.FinishedAs(ok) ==> next.FinishedAs(ok))
  {
    hide FindIdle, IndexOf, SetJob, Without;
  }

  /** So what explained a status still does. */
  lemma StepKeepsExplanation(s: State, e: Event, t: nat, status: TaskStatus)
    requires Explained(s, t, status)
    ensures Explained(Step(s, e), t, status)
  {
    hide Step, Dispatch.ClaimedFor, Dispatch.FinishedAs;
    var s' := Step(s, e);
    match status
    case Pending =>
    case ClaimedBy(b) =>
      var d :| 0 <= d < |s.dispatches| && s.dispatches[d].taskId == t && s.dispatches[d].ClaimedFor(b);
      DispatchMovesOn(s, e, d);
      assert s'.dispatches[d].ClaimedFor(b);
    case Completed =>
      var d :| 0 <= d < |s.dispatches| && s.dispatches[d].taskId == t && s.dispatches[d].FinishedAs(true);
      DispatchMovesOn(s, e, d);
      assert s'.dispatches[d].FinishedAs(true);
    case FailedTask =>
      var d :| 0 <= d < |s.dispatches| && s.dispatches[d].taskId == t && s.dispatches[d].FinishedAs(false);
      DispatchMovesOn(s, e, d);
      assert s'.dispatches[d].FinishedAs(false);
  }

  lemma StepKeepsStatuses(s: State, e: Event)
    requires StatusesExplained(s)
    ensures StatusesExplained(Step(s, e))
  {
    var s' := Step(s, e);
    forall t | 0 <= t < |s'.tasks|
      ensures s'.tasks[t].status == s'.inserted[t].status || Explained(s', t, s'.tasks[t].status)
    {
      if t < |s.tasks| && s'.tasks[t].status == s.tasks[t].status {
        if s.tasks[t].status != s.inserted[t].status { StepKeepsExplanation(s, e, t, s.tasks[t].status); }
      } else if t < |s.tasks| {
        var d := s'.dispatches[e.d];
        assert d.taskId == t;
        if e.ClaimTask? { assert d.ClaimedFor(d.phase.bot); } else { assert d.FinishedAs(e.ok); }
      }
    }
  }

  ghost predicate Inv(s: State) {
    LeaseInv(s) && LeasesNamed(s) && BotsConserved(s) && TotalsAgree(s) && StatusesExplained(s)
  }

  lemma {:induction false} RunKeepsInv(es: seq<Event>)
    ensures Inv(Run(es))
  {
    hide Step, LeaseInv, LeasesNamed, BotsConserved, TotalsAgree, StatusesExplained;
    if es == [] {
      EmptyInv();
    } else {
      var s, e := Run(es[..|es| - 1]), es[|es| - 1];
      RunKeepsInv(es[..|es| - 1]);
      StepKeepsLeases(s, e);
      StepNamesLeases(s, e);
      StepKeepsBots(s, e);
      StepKeepsTotals(s, e);
      StepKeepsStatuses(s, e);
    }
  }

  lemma EmptyInv()
    ensures Inv(INITIAL)
  {
  }

  // ----- Main results -------------------------------------------------------

  /** A bot serves one dispatch from acquire to release. */
  lemma OneDispatchPerBot(es: seq<Event>, d: nat, x: nat, b: nat)
    requires d < x < |Run(es).dispatches|
    ensures !(Run(es).dispatches[d].Leases(b) && Run(es).dispatches[x].Leases(b))
  {
    hide Step, Run;
    RunKeepsInv(es);
  }

  /** The registry names the dispatch that leases a bot: its job, and its execution. */
  lemma RegistryNamesLease(es: seq<Event>, i: nat, d: nat)
    requires i < |Run(es).registry| && d < |Run(es).dispatches|
    ensures
      var entry, dispatch := Run(es).registry[i], Run(es).dispatches[d];
      dispatch.Leases(entry.botId) ==>
        entry.currentJob == Some(dispatch.jobId) && entry.executionId == dispatch.executionId
  {
    hide Step, Run;
    RunKeepsInv(es);
    assert LeaseNamed(Run(es), i, d);
  }

  lemma {:induction false} FlightIsZeroOrOne(dispatches: seq<Dispatch>, b: nat)
    requires forall d, x :: 0 <= d < x < |dispatches| && dispatches[d].Leases(b) ==> !dispatches[x].Leases(b)
    ensures SumBy(dispatches, FlightWeight(b)) == 0
            || (SumBy(dispatches, FlightWeight(b)) == 1
                && exists d :: 0 <= d < |dispatches| && dispatches[d].InFlightOn(b))
  {
    if dispatches != [] {
      var n := |dispatches| - 1;
      if dispatches[n].InFlightOn(b) {
        assert dispatches[n].Leases(b);
        forall i | 0 <= i < n
          ensures FlightWeight(b)(dispatches[..n][i]) == 0
        {
          var x := dispatches[i];
          assert x.InFlightOn(b) ==> x.Leases(b);
        }
        SumByZero(dispatches[..n], FlightWeight(b));
      } else {
        FlightIsZeroOrOne(dispatches[..n], b);
        if d :| 0 <= d < n && dispatches[..n][d].InFlightOn(b) {
          assert dispatches[d].InFlightOn(b);
        }
      }
    }
  }

  /**
   * tasksClaimed = tasksCompleted + tasksFailed, plus one exactly while a task is
   * in flight; completed and failed count the dispatches with that outcome.
   */
  lemma CountersConserved(es: seq<Event>, b: nat)
    requires b < |Run(es).bots|
    ensures
      var row := Run(es).bots[b];
      && row.completed + row.failed <= row.claimed <= row.completed + row.failed + 1
      && row.claimed == row.completed + row.failed + InFlight(Run(es), b)
      && row.completed == SettledCount(Run(es), b, true)
      && row.failed == SettledCount(Run(es), b, false)
  {
    hide Step, Run, SumBy;
    RunKeepsInv(es);
    FlightIsZeroOrOne(Run(es).dispatches, b);
    assert Conserved(Run(es), b);
  }

  /**
   * Attempts beyond those the rows were inserted with, and claims, differ only by
   * dispatches between the two claim writes.
   */
  lemma {:induction false} ClaimsMatchAttempts(es: seq<Event>)
    ensures
      var s := Run(es);
      SumBy(s.tasks, AttemptsOf) - SumBy(s.inserted, AttemptsOf) - SumBy(s.bots, ClaimsOf)
      == SumBy(s.dispatches, BetweenClaims)
  {
    hide Step, Run;
    RunKeepsInv(es);
  }

  /**
   * A task has the status its row was inserted with, or it is completed (failed,
   * claimed) on account of a dispatch of that task that succeeded (failed, was
   * given that bot).
   */
  lemma TaskStatusIsEarned(es: seq<Event>, t: nat)
    requires t < |Run(es).tasks|
    ensures t < |Run(es).inserted|
    ensures Run(es).tasks[t].status == Run(es).inserted[t].status || Explained(Run(es), t, Run(es).tasks[t].status)
  {
    hide Step, Run, Explained;
    RunKeepsInv(es);
  }

  // ----- What the events of a run did -----------------------------------------

  lemma RunOne(es: seq<Event>, e: Event)
    ensures Run(es + [e]) == Step(Run(es), e)
  {
    hide Step;
    assert (es + [e])[..|es|] == es;
  }

  /** Event i reports the end of dispatch d, which is running on bot b at that moment. */
  ghost predicate FinishesOn(es: seq<Event>, i: nat, d: nat, b: nat, ok: bool)
    requires i < |es|
  {
    && es[i] == Event.Finish(d, ok)
    && d < |Run(es[..i]).dispatches| && Run(es[..i]).dispatches[d].phase == Running(b)
  }

  /** Event i settles dispatch d, whose end was reported. */
  ghost predicate SettlesAt(es: seq<Event>, i: nat, d: nat)
    requires i < |es|
  {
    && es[i] == Event.Settle(d)
    && d < |Run(es[..i]).dispatches|
    && (Run(es[..i]).dispatches[d].phase.Succeeded? || Run(es[..i]).dispatches[d].phase.Failed?)
  }

  ghost predicate FinishedBy(es: seq<Event>, d: nat, b: nat, ok: bool) {
    exists i :: 0 <= i < |es| && FinishesOn(es, i, d, b, ok)
  }

  ghost predicate SettledBy(es: seq<Event>, d: nat) {
    exists i :: 0 <= i < |es| && SettlesAt(es, i, d)
  }

  lemma FinishedByOneMore(es: seq<Event>, e: Event, d: nat, b: nat, ok: bool)
    ensures FinishedBy(es + [e], d, b, ok) <==>
            || FinishedBy(es, d, b, ok)
            || (e == Event.Finish(d, ok) && d < |Run(es).dispatches| && Run(es).dispatches[d].phase == Running(b))
  {
    hide Run;
    var longer := es + [e];
    forall i | 0 <= i < |es|
      ensures FinishesOn(longer, i, d, b, ok) <==> FinishesOn(es, i, d, b, ok)
    {
      assert longer[..i] == es[..i];
    }
    assert longer[..|es|] == es;
    if e == Event.Finish(d, ok) && d < |Run(es).dispatches| && Run(es).dispatches[d].phase == Running(b) {
      assert FinishesOn(longer, |es|, d, b, ok);
    }
    if FinishedBy(es, d, b, ok) {
      var i :| 0 <= i < |es| && FinishesOn(es, i, d, b, ok);
      assert FinishesOn(longer, i, d, b, ok);
    }
  }

  lemma SettledByOneMore(es: seq<Event>, e: Event, d: nat)
    ensures SettledBy(es + [e], d) <==>
            || SettledBy(es, d)
            || (e == Event.Settle(d) && d < |Run(es).dispatches|
                && (Run(es).dispatches[d].phase.Succeeded? || Run(es).dispatches[d].phase.Failed?))
  {
    hide Run;
    var longer := es + [e];
    forall i | 0 <= i < |es|
      ensures SettlesAt(longer, i, d) <==> SettlesAt(es, i, d)
    {
      assert longer[..i] == es[..i];
    }
    assert longer[..|es|] == es;
    if
      && e == Event.Settle(d) && d < |Run(es).dispatches|
      && (Run(es).dispatches[d].phase.Succeeded? || Run(es).dispatches[d].phase.Failed?)
    {
      assert SettlesAt(longer, |es|, d);
    }
    if SettledBy(es, d) {
      var i :| 0 <= i < |es| && SettlesAt(es, i, d);
      assert SettlesAt(longer, i, d);
    }
  }

  predicate FinishedOn(d: Dispatch, b: nat, ok: bool) {
    d.FinishedAs(ok) && d.phase.bot == b
  }

  predicate HasSettled(d: Dispatch) {
    d.phase.Settled? || d.phase.Released?
  }

  /** One step finishes a dispatch exactly on its Finish event and settles it exactly on its Settle event. */
  lemma OutcomeStep(s: State, e: Event, d: nat, b: nat, ok: bool)
    requires RegistrySound(s) && d < |Step(s, e).dispatches|
    ensures
      var next := Step(s, e).dispatches[d];
      if d >= |s.dispatches| then !FinishedOn(next, b, ok) && !HasSettled(next)
      else
        var now := s.dispatches[d];
        && (FinishedOn(next, b, ok) <==>
              FinishedOn(now, b, ok) || (e == Event.Finish(d, ok) && now.phase == Running(b)))
        && (HasSettled(next) <==>
              HasSettled(now) || (e == Event.Settle(d) && (now.phase.Succeeded? || now.phase.Failed?)))
  {
    hide FindIdle, IndexOf, SetJob, Without;
    if d < |s.dispatches| && !s.dispatches[d].phase.Polling? && !s.dispatches[d].phase.Ended? {
      assert !s.dispatches[d].phase.Released? ==> s.dispatches[d].Leases(s.dispatches[d].phase.bot);
    }
  }

  lemma {:induction false} NothingBeforeStart(es: seq<Event>, d: nat, b: nat, ok: bool)
    requires d >= |Run(es).dispatches|
    ensures !FinishedBy(es, d, b, ok) && !SettledBy(es, d)
  {
    if es != [] {
      var init, e := es[..|es| - 1], es[|es| - 1];
      assert es == init + [e];
      RunOne(init, e);
      DispatchesGrow(Run(init), e);
      hide Run;
      NothingBeforeStart(init, d, b, ok);
      FinishedByOneMore(init, e, d, b, ok);
      SettledByOneMore(init, e, d);
    }
  }

  lemma DispatchesGrow(s: State, e: Event)
    ensures |s.dispatches| <= |Step(s, e).dispatches|
  {
    hide FindIdle, IndexOf, SetJob, Without;
  }

  /**
   * A dispatch stands as finished on a bot with an outcome if and only if that
   * outcome was reported while it ran there, and as settled if and only if it was
   * settled after that.
   */
  lemma {:induction false} OutcomesAreReported(es: seq<Event>, d: nat, b: nat, ok: bool)
    requires d < |Run(es).dispatches|
    ensures FinishedOn(Run(es).dispatches[d], b, ok) <==> FinishedBy(es, d, b, ok)
    ensures HasSettled(Run(es).dispatches[d]) <==> SettledBy(es, d)
  {
    if es != [] {
      var init, e := es[..|es| - 1], es[|es| - 1];
      assert es == init + [e];
      RunOne(init, e);
      RunKeepsInv(init);
      OutcomeStep(Run(init), e, d, b, ok);
      hide Run, Step, FinishedOn, HasSettled;
      FinishedByOneMore(init, e, d, b, ok);
      SettledByOneMore(init, e, d);
      if d < |Run(init).dispatches| {
        OutcomesAreReported(init, d, b, ok);
      } else {
        NothingBeforeStart(init, d, b, ok);
      }
    }
  }

  ghost function SettledOnes(dispatches: seq<Dispatch>, b: nat, ok: bool): set<nat> {
    set d: nat | d < |dispatches| && dispatches[d].SettledAs(b, ok)
  }

  lemma OneMoreSettled(dispatches: seq<Dispatch>, b: nat, ok: bool)
    requires dispatches != []
    ensures
      var n := |dispatches| - 1;
      && n !in SettledOnes(dispatches[..n], b, ok)
      && SettledOnes(dispatches, b, ok)
         == SettledOnes(dispatches[..n], b, ok) + (if dispatches[n].SettledAs(b, ok) then {n} else {})
  {
    hide Dispatch.SettledAs;
  }

  lemma {:induction false} CountIsSize(dispatches: seq<Dispatch>, b: nat, ok: bool)
    ensures SumBy(dispatches, SettledWeight(b, ok)) == |SettledOnes(dispatches, b, ok)|
  {
    hide Dispatch.SettledAs;
    if dispatches != [] {
      OneMoreSettled(dispatches, b, ok);
      hide SettledOnes;
      CountIsSize(dispatches[..|dispatches| - 1], b, ok);
    }
  }

  /** The dispatches whose outcome was reported on bot b and then settled. */
  ghost function Reported(es: seq<Event>, b: nat, ok: bool): set<nat> {
    set d: nat | d < |Run(es).dispatches| && FinishedBy(es, d, b, ok) && SettledBy(es, d)
  }

  /** tasksCompleted counts reported successes of the bot, tasksFailed reported failures. */
  lemma CountersCountReports(es: seq<Event>, b: nat)
    requires b < |Run(es).bots|
    ensures Run(es).bots[b].completed == |Reported(es, b, true)|
    ensures Run(es).bots[b].failed == |Reported(es, b, false)|
  {
    CountersConserved(es, b);
    var dispatches := Run(es).dispatches;
    hide Run, SumBy;
    forall ok
      ensures SettledCount(Run(es), b, ok) == |Reported(es, b, ok)|
    {
      CountIsSize(dispatches, b, ok);
      forall d: nat | d < |dispatches|
        ensures dispatches[d].SettledAs(b, ok) <==> FinishedBy(es, d, b, ok) && SettledBy(es, d)
      {
        OutcomesAreReported(es, d, b, ok);
      }
      assert Reported(es, b, ok) == SettledOnes(dispatches, b, ok);
    }
  }

  // ----- The status of a task ---------------------------------------------------

  /** What an event writes into the status of task t, if anything. */
  function StatusWrite(s: State, e: Event, t: nat): Option<TaskStatus> {
    match e
    case ClaimTask(d) =>
      if d < |s.dispatches| && s.dispatches[d].taskId == t && s.dispatches[d].phase.Acquired?
      then Some(ClaimedBy(s.dispatches[d].phase.bot)) else None
    case Finish(d, ok) =>
      if d < |s.dispatches| && s.dispatches[d].taskId == t && s.dispatches[d].phase.Running?
      then Some(if ok then Completed else FailedTask) else None
    case _ => None
  }

  lemma StatusStep(s: State, e: Event, t: nat)
    requires t < |s.tasks|
    ensures t < |Step(s, e).tasks|
    ensures Step(s, e).tasks[t].status == StatusWrite(s, e, t).GetOr(s.tasks[t].status)
  {
    hide FindIdle, IndexOf, SetJob, Without;
  }

  /** What event j of a run wrote. */
  ghost function WriteAt(es: seq<Event>, j: nat, t: nat): Option<TaskStatus>
    requires j < |es|
  {
    StatusWrite(Run(es[..j]), es[j], t)
  }

  lemma WriteAtPrefix(es: seq<Event>, e: Event, j: nat, t: nat)
    requires j < |es|
    ensures WriteAt(es + [e], j, t) == WriteAt(es, j, t)
  {
    hide Run, StatusWrite;
    assert (es + [e])[..j] == es[..j];
  }

  lemma WriteAtEnd(es: seq<Event>, e: Event, t: nat)
    ensures WriteAt(es + [e], |es|, t) == StatusWrite(Run(es), e, t)
  {
    hide Run, StatusWrite;
    assert (es + [e])[..|es|] == es;
  }

  /** A status lasts until the next write. */
  lemma {:induction false} NoWriteNoChange(es: seq<Event>, more: seq<Event>, t: nat)
    requires t < |Run(es).tasks|
    requires forall j :: |es| <= j < |es + more| ==> WriteAt(es + more, j, t).None?
    ensures t < |Run(es + more).tasks| && Run(es + more).tasks[t].status == Run(es).tasks[t].status
  {
    hide Run, Step, WriteAt, StatusWrite;
    if more == [] {
      assert es + more == es;
    } else {
      var init, e := more[..|more| - 1], more[|more| - 1];
      var shorter := es + init;
      assert es + more == shorter + [e];
      forall j | |es| <= j < |shorter|
        ensures WriteAt(shorter, j, t).None?
      {
        WriteAtPrefix(shorter, e, j, t);
      }
      NoWriteNoChange(es, init, t);
      RunOne(shorter, e);
      WriteAtEnd(shorter, e, t);
      StatusStep(Run(shorter), e, t);
    }
  }

  /**
   * The status of a task is what the last claim or reported end among the events
   * wrote: claimed for the bot acquired, completed after a success, failed after
   * a failure.
   */
  lemma StatusIsLastWrite(es: seq<Event>, e: Event, more: seq<Event>, t: nat)
    requires t < |Run(es).tasks| && StatusWrite(Run(es), e, t).Some?
    requires forall j :: |es + [e]| <= j < |es + [e] + more| ==> WriteAt(es + [e] + more, j, t).None?
    ensures t < |Run(es + [e] + more).tasks|
    ensures Some(Run(es + [e] + more).tasks[t].status) == StatusWrite(Run(es), e, t)
  {
    RunOne(es, e);
    hide Run, Step, StatusWrite, WriteAt;
    StatusStep(Run(es), e, t);
    NoWriteNoChange(es + [e], more, t);
  }

  // ----- Which bot a dispatch gets -------------------------------------------------

  /**
   * A poll leases the first bot of the execution that is connected and has no
   * job; the entry then names the job of the dispatch.
   */
  lemma PollTakesFirstIdle(s: State, d: nat, i: nat)
    requires d < |s.dispatches| && s.dispatches[d].phase.Polling? && i < |s.registry|
    requires
      var entry := s.registry[i];
      entry.executionId == s.dispatches[d].executionId && entry.connected && entry.currentJob == None
    requires forall k :: 0 <= k < i ==>
               var entry := s.registry[k];
               entry.executionId != s.dispatches[d].executionId || !entry.connected || entry.currentJob.Some?
    ensures
      var s' := PollStep(s, d);
      && s'.dispatches == s.dispatches[d := s.dispatches[d].(phase := Acquired(s.registry[i].botId))]
      && s'.registry == s.registry[i := s.registry[i].(currentJob := Some(s.dispatches[d].jobId))]
      && s'.bots == s.bots && s'.tasks == s.tasks && s'.inserted == s.inserted
  {
    FirstIdleIsFound(s.registry, s.dispatches[d].executionId, i);
  }

  lemma FirstIdleIsFound(registry: seq<Entry>, execution: ExecutionId, i: nat)
    requires i < |registry| && Idle(registry[i], execution)
    requires forall k :: 0 <= k < i ==> !Idle(registry[k], execution)
    ensures FindIdle(registry, execution) == Some(i)
  {
  }

  /** The state when one dispatch is all there is. */
  /** A registered bot is busy if and only if a dispatch leases it. */
  lemma BusyIffLeased(es: seq<Event>, i: nat)
    requires i < |Run(es).registry|
    ensures
      var s := Run(es);
      s.registry[i].currentJob != None <==>
        exists d :: 0 <= d < |s.dispatches| && s.dispatches[d].Leases(s.registry[i].botId)
  {
    hide Step, Run;
    RunKeepsInv(es);
  }

  /** Dispatch d polls and entry i is the first idle bot of its execution. */
  predicate Ready(s: State, d: nat, i: nat) {
    && d < |s.dispatches| && s.dispatches[d].phase.Polling? && i < |s.registry|
    && Idle(s.registry[i], s.dispatches[d].executionId)
    && forall k :: 0 <= k < i ==> !Idle(s.registry[k], s.dispatches[d].executionId)
  }

  predicate RowsThere(s: State, d: nat, i: nat) {
    && d < |s.dispatches| && i < |s.registry|
    && s.dispatches[d].taskId < |s.tasks| && s.registry[i].botId < |s.bots|
    && forall k :: 0 <= k < |s.registry| && k != i ==> s.registry[k].botId != s.registry[i].botId
  }

  /** The state with other values for the entry, the bot row, the task row and the phase of one dispatch. */
  function Changed(
    s: State, d: nat, i: nat, job: Option<JobId>, bot: BotRow, task: TaskRow, phase: Phase): State
    requires RowsThere(s, d, i)
  {
    State(s.registry[i := s.registry[i].(currentJob := job)],
          s.bots[s.registry[i].botId := bot],
          s.tasks[s.dispatches[d].taskId := task],
          s.inserted,
          s.dispatches[d := s.dispatches[d].(phase := phase)])
  }

  lemma PollChanges(s: State, d: nat, i: nat)
    requires RowsThere(s, d, i) && Ready(s, d, i)
    ensures
      var b, t := s.registry[i].botId, s.dispatches[d].taskId;
      Step(s, Event.Poll(d)) == Changed(s, d, i, Some(s.dispatches[d].jobId), s.bots[b], s.tasks[t], Acquired(b))
  {
    PollTakesFirstIdle(s, d, i);
    hide PollStep, SetPhase;
  }

  lemma ClaimsChange(s: State, d: nat, i: nat, job: Option<JobId>, bot: BotRow, task: TaskRow)
    requires RowsThere(s, d, i)
    ensures
      var b, claimed := s.registry[i].botId, TaskRow(ClaimedBy(s.registry[i].botId), task.attemptCount + 1);
      && Step(Changed(s, d, i, job, bot, task, Acquired(b)), Event.ClaimTask(d))
         == Changed(s, d, i, job, bot, claimed, TaskClaimed(b))
      && Step(Changed(s, d, i, job, bot, task, TaskClaimed(b)), Event.ClaimBot(d))
         == Changed(s, d, i, job, bot.(claimed := bot.claimed + 1), task, Running(b))
  {
  }

  lemma EndChanges(s: State, d: nat, i: nat, job: Option<JobId>, bot: BotRow, task: TaskRow, ok: bool)
    requires RowsThere(s, d, i)
    ensures
      var b := s.registry[i].botId;
      && Step(Changed(s, d, i, job, bot, task, Running(b)), Event.Finish(d, ok))
         == Changed(s, d, i, job, bot, task.(status := if ok then Completed else FailedTask),
                    if ok then Succeeded(b) else Failed(b))
      && Step(Changed(s, d, i, job, bot, task, if ok then Succeeded(b) else Failed(b)), Event.Settle(d))
         == Changed(s, d, i, job,
                    if ok then bot.(completed := bot.completed + 1) else bot.(failed := bot.failed + 1),
                    task, Settled(b, ok))
  {
  }

  lemma ReleaseChanges(s: State, d: nat, i: nat, job: Option<JobId>, bot: BotRow, task: TaskRow, ok: bool)
    requires RowsThere(s, d, i)
    ensures
      var b := s.registry[i].botId;
      Step(Changed(s, d, i, job, bot, task, Settled(b, ok)), Event.Release(d))
      == Changed(s, d, i, None, bot, task, Released(b, ok))
  {
    var before := Changed(s, d, i, job, bot, task, Settled(s.registry[i].botId, ok));
    assert before.registry[i].botId == s.registry[i].botId;
    assert IndexOf(before.registry, s.registry[i].botId) == Some(i);
  }

  /** The registry as before; one claim, one attempt and the outcome more on bot and task. */
  function Dispatched(s: State, d: nat, i: nat, ok: bool): State
    requires RowsThere(s, d, i)
  {
    var b := s.registry[i].botId;
    var bot, task := s.bots[b], s.tasks[s.dispatches[d].taskId];
    State(s.registry,
          s.bots[b := if ok then BotRow(bot.claimed + 1, bot.completed + 1, bot.failed)
                      else BotRow(bot.claimed + 1, bot.completed, bot.failed + 1)],
          s.tasks[s.dispatches[d].taskId := TaskRow(if ok then Completed else FailedTask, task.attemptCount + 1)],
          s.inserted,
          s.dispatches[d := s.dispatches[d].(phase := Released(b, ok))])
  }

  lemma FirstHalf(s: State, d: nat, i: nat)
    requires RowsThere(s, d, i) && Ready(s, d, i)
    ensures
      var b := s.registry[i].botId;
      var bot, task := s.bots[b], s.tasks[s.dispatches[d].taskId];
      Step(Step(Step(s, Event.Poll(d)), Event.ClaimTask(d)), Event.ClaimBot(d))
      == Changed(s, d, i, Some(s.dispatches[d].jobId), bot.(claimed := bot.claimed + 1),
                 TaskRow(ClaimedBy(b), task.attemptCount + 1), Running(b))
  {
    hide Step, Ready, Changed;
    var b := s.registry[i].botId;
    var bot, task := s.bots[b], s.tasks[s.dispatches[d].taskId];
    PollChanges(s, d, i);
    ClaimsChange(s, d, i, Some(s.dispatches[d].jobId), bot, task);
    ClaimsChange(s, d, i, Some(s.dispatches[d].jobId), bot, TaskRow(ClaimedBy(b), task.attemptCount + 1));
  }

  lemma SecondHalf(s: State, d: nat, i: nat, job: Option<JobId>, bot: BotRow, task: TaskRow, ok: bool)
    requires RowsThere(s, d, i)
    ensures
      var b := s.registry[i].botId;
      Step(Step(Step(Changed(s, d, i, job, bot, task, Running(b)), Event.Finish(d, ok)), Event.Settle(d)),
           Event.Release(d))
      == Changed(s, d, i, None,
                 if ok then bot.(completed := bot.completed + 1) else bot.(failed := bot.failed + 1),
                 task.(status := if ok then Completed else FailedTask), Released(b, ok))
  {
    hide Step, Changed;
    var task' := task.(status := if ok then Completed else FailedTask);
    var bot' := if ok then bot.(completed := bot.completed + 1) else bot.(failed := bot.failed + 1);
    EndChanges(s, d, i, job, bot, task, ok);
    EndChanges(s, d, i, job, bot, task', ok);
    ReleaseChanges(s, d, i, job, bot', task', ok);
  }

  lemma EndOfChanges(s: State, d: nat, i: nat, ok: bool)
    requires RowsThere(s, d, i) && Ready(s, d, i)
    ensures
      var b := s.registry[i].botId;
      var bot, task := s.bots[b], s.tasks[s.dispatches[d].taskId];
      var bot', task' := bot.(claimed := bot.claimed + 1), TaskRow(ClaimedBy(b), task.attemptCount + 1);
      Changed(s, d, i, None,
              if ok then bot'.(completed := bot'.completed + 1) else bot'.(failed := bot'.failed + 1),
              task'.(status := if ok then Completed else FailedTask), Released(b, ok))
      == Dispatched(s, d, i, ok)
  {
    ReleasedEntry(s, d, i);
    hide Ready;
  }

  lemma DispatchSteps(s: State, d: nat, i: nat, ok: bool)
    requires RowsThere(s, d, i) && Ready(s, d, i)
    ensures
      var running := Step(Step(Step(s, Event.Poll(d)), Event.ClaimTask(d)), Event.ClaimBot(d));
      Step(Step(Step(running, Event.Finish(d, ok)), Event.Settle(d)), Event.Release(d)) == Dispatched(s, d, i, ok)
  {
    hide Step, Ready, Changed, Dispatched;
    var b := s.registry[i].botId;
    var bot, task := s.bots[b], s.tasks[s.dispatches[d].taskId];
    FirstHalf(s, d, i);
    SecondHalf(s, d, i, Some(s.dispatches[d].jobId), bot.(claimed := bot.claimed + 1),
               TaskRow(ClaimedBy(b), task.attemptCount + 1), ok);
    EndOfChanges(s, d, i, ok);
  }

  lemma ReadyHasRows(es: seq<Event>, d: nat, i: nat)
    requires Ready(Run(es), d, i)
    ensures RowsThere(Run(es), d, i)
  {
    hide Step, Run, LeasesExclusive, RegistryMatches, LeasesNamed, BotsConserved, TotalsAgree, StatusesExplained, Idle;
    RunKeepsInv(es);
  }

  /**
   * From every reachable state a polling dispatch with an idle bot can run to its end, whatever
   * the outcome, and then nothing but its own rows has changed.
   */
  lemma DispatchFromAnywhere(es: seq<Event>, d: nat, i: nat, ok: bool) returns (longer: seq<Event>)
    requires Ready(Run(es), d, i)
    ensures es <= longer && RowsThere(Run(es), d, i)
    ensures Run(longer) == Dispatched(Run(es), d, i, ok)
  {
    hide Step, Run, Ready, RowsThere, Dispatched;
    ReadyHasRows(es, d, i);
    DispatchSteps(Run(es), d, i, ok);
    var e1 := es + [Event.Poll(d)];
    var e2 := e1 + [Event.ClaimTask(d)];
    var e3 := e2 + [Event.ClaimBot(d)];
    var e4 := e3 + [Event.Finish(d, ok)];
    var e5 := e4 + [Event.Settle(d)];
    longer := e5 + [Event.Release(d)];
    RunOne(es, Event.Poll(d));
    RunOne(e1, Event.ClaimTask(d));
    RunOne(e2, Event.ClaimBot(d));
    RunOne(e3, Event.Finish(d, ok));
    RunOne(e4, Event.Settle(d));
    RunOne(e5, Event.Release(d));
  }

  lemma ReleasedEntry(s: State, d: nat, i: nat)
    requires Ready(s, d, i)
    ensures s.registry[i := s.registry[i].(currentJob := None)] == s.registry
  {
    assert s.registry[i].(currentJob := None) == s.registry[i];
  }

  function Only(job: Option<JobId>, bot: BotRow, task: TaskRow, row: TaskRow, phase: Phase): State {
    State([Entry(0, "execution", true, job)], [bot], [task], [row], [Dispatch("job", 0, "execution", phase)])
  }

  lemma StartedAlone(row: TaskRow)
    ensures
      var s := Step(Step(Step(INITIAL, InsertTask(row)), SpawnBot("execution")), SetConnected(0, true));
      Step(s, Start("job", 0, "execution")) == Only(None, BotRow(0, 0, 0), row, row, Polling)
  {
    assert IndexOf([Entry(0, "execution", false, None)], 0) == Some(0);
  }

  lemma RunningAlone(row: TaskRow)
    ensures
      var s := Only(None, BotRow(0, 0, 0), row, row, Polling);
      Step(Step(Step(s, Event.Poll(0)), Event.ClaimTask(0)), Event.ClaimBot(0))
      == Only(Some("job"), BotRow(1, 0, 0), TaskRow(ClaimedBy(0), row.attemptCount + 1), row, Running(0))
  {
    PollTakesFirstIdle(Only(None, BotRow(0, 0, 0), row, row, Polling), 0, 0);
  }

  lemma EndedAlone(row: TaskRow, ok: bool)
    ensures
      var s := Only(Some("job"), BotRow(1, 0, 0), TaskRow(ClaimedBy(0), row.attemptCount + 1), row, Running(0));
      Step(Step(Step(s, Event.Finish(0, ok)), Event.Settle(0)), Event.Release(0)) ==
      Only(None, if ok then BotRow(1, 1, 0) else BotRow(1, 0, 1),
           TaskRow(if ok then Completed else FailedTask, row.attemptCount + 1), row, Released(0, ok))
  {
    assert IndexOf([Entry(0, "execution", true, Some("job"))], 0) == Some(0);
  }

  /**
   * One dispatch from start to end on a single bot: the bot is idle again, the
   * task was attempted once more and has the reported outcome, and so do the
   * counters of the bot.
   */
  lemma DispatchRuns(row: TaskRow, ok: bool) returns (es: seq<Event>)
    ensures
      Run(es) ==
      Only(None, if ok then BotRow(1, 1, 0) else BotRow(1, 0, 1),
           TaskRow(if ok then Completed else FailedTask, row.attemptCount + 1), row, Released(0, ok))
  {
    hide Step;
    assert Run([]) == INITIAL;
    var e1 := [] + [InsertTask(row)];
    var e2 := e1 + [SpawnBot("execution")];
    var e3 := e2 + [SetConnected(0, true)];
    var e4 := e3 + [Start("job", 0, "execution")];
    var e5 := e4 + [Event.Poll(0)];
    var e6 := e5 + [Event.ClaimTask(0)];
    var e7 := e6 + [Event.ClaimBot(0)];
    var e8 := e7 + [Event.Finish(0, ok)];
    var e9 := e8 + [Event.Settle(0)];
    es := e9 + [Event.Release(0)];
    hide Run;
    RunOne([], InsertTask(row));
    RunOne(e1, SpawnBot("execution"));
    RunOne(e2, SetConnected(0, true));
    RunOne(e3, Start("job", 0, "execution"));
    RunOne(e4, Event.Poll(0));
    RunOne(e5, Event.ClaimTask(0));
    RunOne(e6, Event.ClaimBot(0));
    RunOne(e7, Event.Finish(0, ok));
    RunOne(e8, Event.Settle(0));
    RunOne(e9, Event.Release(0));
    StartedAlone(row);
    RunningAlone(row);
    EndedAlone(row, ok);
  }

  // ----- The dispatcher, updating shared state in place ----------------------

  class OpenClawDispatcher {
    var registry: seq<Entry>
    var bots: seq<BotRow>
    var tasks: seq<TaskRow>
    ghost var inserted: seq<TaskRow>
    var dispatches: seq<Dispatch>

    ghost function Abs(): State
      reads this
    {
      State(registry, bots, tasks, inserted, dispatches)
    }

    constructor ()
      ensures Abs() == INITIAL
    {
      registry, bots, tasks, inserted, dispatches := [], [], [], [], [];
    }

    /** Takes the first idle, connected bot of the execution, in registration order. */
    method AcquireIdleBot(execution: ExecutionId, job: JobId) returns (bot: Option<nat>)
      modifies this`registry
      ensures
        match FindIdle(old(registry), execution)
        case None => bot == None && registry == old(registry)
        case Some(i) =>
          && bot == Some(old(registry)[i].botId)
          && registry == old(registry)[i := old(registry)[i].(currentJob := Some(job))]
    {
      var i := 0;
      while i < |registry|
        invariant 0 <= i <= |registry|
        invariant registry == old(registry)
        invariant forall k :: 0 <= k < i ==> !Idle(registry[k], execution)
      {
        if Idle(registry[i], execution) {
          bot := Some(registry[i].botId);
          registry := registry[i := registry[i].(currentJob := Some(job))];
          return;
        }
        i := i + 1;
      }
      bot := None;
    }

    method ReleaseBot(bot: nat)
      modifies this`registry
      ensures registry == SetJob(old(registry), bot, None)
    {
      var found := IndexOf(registry, bot);
      if found.Some? {
        registry := registry[found.value := registry[found.value].(currentJob := None)];
      }
    }

    method UnregisterBot(bot: nat)
      modifies this`registry
      ensures Abs() == Step(old(Abs()), Event.UnregisterBot(bot))
    {
      var found := IndexOf(registry, bot);
      if found.Some? {
        registry := registry[..found.value] + registry[found.value + 1..];
      }
    }

    method SetPhase(d: nat, phase: Phase)
      requires d < |dispatches|
      modifies this`dispatches
      ensures dispatches == old(dispatches)[d := old(dispatches)[d].(phase := phase)]
    {
      dispatches := dispatches[d := dispatches[d].(phase := phase)];
    }

    method Poll(d: nat)
      requires d < |dispatches|
      modifies this
      ensures Abs() == PollStep(old(Abs()), d)
    {
      if dispatches[d].phase.Polling? {
        var bot := AcquireIdleBot(dispatches[d].executionId, dispatches[d].jobId);
        if bot.Some? {
          SetPhase(d, Acquired(bot.value));
        }
      }
    }

    method ClaimTask(d: nat)
      requires d < |dispatches|
      modifies this
      ensures Abs() == ClaimTaskStep(old(Abs()), d)
    {
      var t := dispatches[d].taskId;
      if dispatches[d].phase.Acquired? && t < |tasks| {
        var bot := dispatches[d].phase.bot;
        tasks := tasks[t := TaskRow(ClaimedBy(bot), tasks[t].attemptCount + 1)];
        SetPhase(d, TaskClaimed(bot));
      }
    }

    method ClaimBot(d: nat)
      requires d < |dispatches|
      modifies this
      ensures Abs() == ClaimBotStep(old(Abs()), d)
    {
      if dispatches[d].phase.TaskClaimed? && dispatches[d].phase.bot < |bots| {
        var bot := dispatches[d].phase.bot;
        bots := bots[bot := bots[bot].(claimed := bots[bot].claimed + 1)];
        SetPhase(d, Running(bot));
      }
    }

    method Finish(d: nat, ok: bool)
      requires d < |dispatches|
      modifies this
      ensures Abs() == FinishStep(old(Abs()), d, ok)
    {
      var t := dispatches[d].taskId;
      if dispatches[d].phase.Running? && t < |tasks| {
        var bot := dispatches[d].phase.bot;
        tasks := tasks[t := tasks[t].(status := if ok then Completed else FailedTask)];
        SetPhase(d, if ok then Succeeded(bot) else Failed(bot));
      }
    }

    method Settle(d: nat)
      requires d < |dispatches|
      modifies this
      ensures Abs() == SettleStep(old(Abs()), d)
    {
      var phase := dispatches[d].phase;
      if (phase.Succeeded? || phase.Failed?) && phase.bot < |bots| {
        var row := bots[phase.bot];
        if phase.Succeeded? {
          bots := bots[phase.bot := row.(completed := row.completed + 1)];
        } else {
          bots := bots[phase.bot := row.(failed := row.failed + 1)];
        }
        SetPhase(d, Settled(phase.bot, phase.Succeeded?));
      }
    }

    method Release(d: nat)
      requires d < |dispatches|
      modifies this
      ensures Abs() == ReleaseStep(old(Abs()), d)
    {
      if dispatches[d].phase.Settled? {
        var bot, ok := dispatches[d].phase.bot, dispatches[d].phase.ok;
        ReleaseBot(bot);
        SetPhase(d, Released(bot, ok));
      }
    }

    /** Every event, on the shared state. */
    method Perform(e: Event)
      modifies this
      ensures Abs() == Step(old(Abs()), e)
    {
      hide PollStep, ClaimTaskStep, ClaimBotStep, FinishStep, SettleStep, ReleaseStep;
      match e
      case InsertTask(row) =>
        tasks := tasks + [row];
        inserted := inserted + [row];
      case SpawnBot(execution) =>
        registry := registry + [Entry(|bots|, execution, false, None)];
        bots := bots + [BotRow(0, 0, 0)];
      case UnregisterBot(b) => UnregisterBot(b);
      case SetConnected(b, connected) =>
        var found := IndexOf(registry, b);
        if found.Some? {
          registry := registry[found.value := registry[found.value].(connected := connected)];
        }
      case Start(j, t, execution) =>
        if t < |tasks| { dispatches := dispatches + [Dispatch(j, t, execution, Polling)]; }
      case Poll(d) => if d < |dispatches| { Poll(d); }
      case GiveUp(d) => if d < |dispatches| && dispatches[d].phase.Polling? { SetPhase(d, Ended); }
      case ClaimTask(d) => if d < |dispatches| { ClaimTask(d); }
      case ClaimBot(d) => if d < |dispatches| { ClaimBot(d); }
      case Finish(d, ok) => if d < |dispatches| { Finish(d, ok); }
      case Settle(d) => if d < |dispatches| { Settle(d); }
      case Release(d) => if d < |dispatches| { Release(d); }
    }
  }
}
