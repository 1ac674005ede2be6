/**
 * The evolution campaign worker: each delivery of a next-iteration job reloads
 * the campaign, plans, creates an execution, inserts the iteration row under a
 * unique key, and only the delivery whose insert won spawns the Ring Leader.
 * Jobs may carry any iteration number and may be delivered any number of times,
 * concurrently.
 */
module Campaign {
  import opened Prelude

  type CampaignId = string

  // createExecution hands out ids that were never used before.
  type ExecutionId = nat

  type IterationKey = (CampaignId, nat)

  datatype Status = Running | Stopped

  datatype Phase =
    | Delivered
    | Reloaded
    | PreviousFound
    | Planned
    | PreflightPassed
    | ExecutionCreated(execution: ExecutionId)
    | RowInserted(execution: ExecutionId)
    | Errored
    | Finished

  datatype Delivery = Delivery(campaign: CampaignId, previous: nat, phase: Phase) {
    function Key(): IterationKey {
      (campaign, previous + 1)
    }

    predicate PastCheck() {
      !phase.Delivered? && !phase.Reloaded? && !phase.Finished?
    }

    predicate HasExecution() {
      phase.ExecutionCreated? || phase.RowInserted?
    }
  }

  /** One call of spawnRingLeader. */
  datatype Spawn = Spawn(key: IterationKey, execution: ExecutionId, ok: bool)

  /** seeds holds the first execution of a campaign whose first iteration row is still to be inserted. */
  datatype State = State(
    campaigns: map<CampaignId, Status>,
    seeds: map<CampaignId, ExecutionId>,
    iterations: map<IterationKey, ExecutionId>,
    nextExecution: ExecutionId,
    deliveries: seq<Delivery>,
    spawns: seq<Spawn>)

  const INITIAL := State(map[], map[], map[], 0, [], [])

  datatype Event =
    | InsertCampaign(c: CampaignId)
    | SeedExecution(c: CampaignId)
    | SeedIteration(c: CampaignId)
    | Halt(c: CampaignId)
    | Deliver(c: CampaignId, previous: nat)
    | Reload(d: nat)
    | LoadPrevious(d: nat)
    | Plan(d: nat, ok: bool)
    | Preflight(d: nat, ok: bool)
    | CreateExecution(d: nat, ok: bool)
    | InsertRow(d: nat)
    | SpawnLeader(d: nat, ok: bool)
    | MarkErrored(d: nat, ok: bool)
    | Crash(d: nat)

  function SetPhase(s: State, d: nat, phase: Phase): State
    requires d < |s.deliveries|
  {
    s.(deliveries := s.deliveries[d := s.deliveries[d].(phase := phase)])
  }

  /** INSERT ... ON CONFLICT DO NOTHING RETURNING id. */
  function InsertStep(s: State, d: nat): State
    requires d < |s.deliveries|
  {
    var now := s.deliveries[d];
    if !now.phase.ExecutionCreated? then s
    else if now.Key() in s.iterations then SetPhase(s, d, Finished)
    else
      SetPhase(s, d, RowInserted(now.phase.execution))
      .(iterations := s.iterations[now.Key() := now.phase.execution])
  }

  function SpawnStep(s: State, d: nat, ok: bool): State
    requires d < |s.deliveries|
  {
    var now := s.deliveries[d];
    if !now.phase.RowInserted? then s
    else
      SetPhase(s, d, if ok then Finished else Errored)
      .(spawns := s.spawns + [Spawn(now.Key(), now.phase.execution, ok)])
  }

  /** A statement of startEvolutionCampaign. */
  predicate Starts(e: Event) {
    e.InsertCampaign? || e.SeedExecution? || e.SeedIteration?
  }

  predicate OfDelivery(e: Event) {
    !Starts(e) && !e.Halt? && !e.Deliver?
  }

  /**
   * A campaign is started by three statements: its own row, its first execution,
   * the row of iteration 1. It may be left after any of them.
   */
  function StartStep(s: State, e: Event): State
    requires Starts(e)
  {
    match e
    case InsertCampaign(c) => if c in s.campaigns then s else s.(campaigns := s.campaigns[c := Running])
    case SeedExecution(c) =>
      if c !in s.campaigns || c in s.seeds || (c, 1) in s.iterations then s
      else s.(seeds := s.seeds[c := s.nextExecution], nextExecution := s.nextExecution + 1)
    case SeedIteration(c) =>
      if c !in s.seeds then s
      else s.(iterations := s.iterations[(c, 1) := s.seeds[c]], seeds := s.seeds - {c})
  }

  function CreateStep(s: State, d: nat, ok: bool): State
    requires d < |s.deliveries|
  {
    if !s.deliveries[d].phase.PreflightPassed? then s
    else if !ok then SetPhase(s, d, Errored)
    else SetPhase(s, d, ExecutionCreated(s.nextExecution)).(nextExecution := s.nextExecution + 1)
  }

  /** Marking the campaign may fail, and the delivery ends either way. */
  function MarkStep(s: State, d: nat, ok: bool): State
    requires d < |s.deliveries|
  {
    var now := s.deliveries[d];
    if !now.phase.Errored? then s
    else
      var s' := SetPhase(s, d, Finished);
      if ok && now.campaign in s.campaigns then s'.(campaigns := s.campaigns[now.campaign := Stopped]) else s'
  }

  /** The events that only move the delivery. */
  predicate OnlyMoves(e: Event) {
    e.Reload? || e.LoadPrevious? || e.Plan? || e.Preflight? || e.Crash?
  }

  function NextPhase(s: State, e: Event): Phase
    requires OnlyMoves(e) && e.d < |s.deliveries|
  {
    var now := s.deliveries[e.d];
    match e
    case Reload(_) =>
      if !now.phase.Delivered? then now.phase
      else if Lookup(s.campaigns, now.campaign) == Some(Running) then Reloaded
      else Finished
    case LoadPrevious(_) =>
      if !now.phase.Reloaded? then now.phase
      else if (now.campaign, now.previous) in s.iterations then PreviousFound
      else Finished
    case Plan(_, ok) => if !now.phase.PreviousFound? then now.phase else if ok then Planned else Errored
    case Preflight(_, ok) => if !now.phase.Planned? then now.phase else if ok then PreflightPassed else Errored
    case Crash(_) => Finished
  }

  function DeliveryStep(s: State, e: Event): State
    requires OfDelivery(e) && e.d < |s.deliveries|
  {
    if OnlyMoves(e) then SetPhase(s, e.d, NextPhase(s, e))
    else
      match e
      case CreateExecution(d, ok) => CreateStep(s, d, ok)
      case InsertRow(d) => InsertStep(s, d)
      case SpawnLeader(d, ok) => SpawnStep(s, d, ok)
      case MarkErrored(d, ok) => MarkStep(s, d, ok)
  }

  function Step(s: State, e: Event): State {
    match e
    case InsertCampaign(_) => StartStep(s, e)
    case SeedExecution(_) => StartStep(s, e)
    case SeedIteration(_) => StartStep(s, e)
    case Halt(c) => if c in s.campaigns then s.(campaigns := s.campaigns[c := Stopped]) else s
    case Deliver(c, previous) => s.(deliveries := s.deliveries + [Delivery(c, previous, Delivered)])
    case _ => if e.d < |s.deliveries| then DeliveryStep(s, e) else s
  }

  function Run(es: seq<Event>): State {
    if es == [] then INITIAL else Step(Run(es[..|es| - 1]), es[|es| - 1])
  }

  // ----- The invariant ------------------------------------------------------

  /** The iterations of a campaign are numbered 1 to n; none is there before its first one is seeded. */
  ghost predicate NumberedTo(s: State, c: CampaignId, n: nat) {
    && (n > 0 ==> c in s.campaigns)
    && (c in s.seeds ==> n == 0 && c in s.campaigns)
    && forall i: nat :: (c, i) in s.iterations <==> 1 <= i <= n
  }

  ghost predicate Numbered(s: State, c: CampaignId) {
    exists n: nat :: NumberedTo(s, c, n)
  }

  ghost predicate Contiguous(s: State) {
    forall c: CampaignId :: Numbered(s, c)
  }

  /** A delivery past the check has its previous iteration on record. */
  ghost predicate PreviousKnown(s: State) {
    forall d :: 0 <= d < |s.deliveries| && s.deliveries[d].PastCheck() ==>
      (s.deliveries[d].campaign, s.deliveries[d].previous) in s.iterations
  }

  ghost predicate ExecutionsFresh(s: State) {
    && (forall k :: k in s.iterations ==> s.iterations[k] < s.nextExecution)
    && (forall d :: 0 <= d < |s.deliveries| && s.deliveries[d].HasExecution() ==>
          s.deliveries[d].phase.execution < s.nextExecution)
    && (forall d, x :: 0 <= d < x < |s.deliveries|
                       && s.deliveries[d].HasExecution() && s.deliveries[x].HasExecution() ==>
          s.deliveries[d].phase.execution != s.deliveries[x].phase.execution)
    && (forall k, l :: k in s.iterations && l in s.iterations && k != l ==> s.iterations[k] != s.iterations[l])
    && (forall d, k :: 0 <= d < |s.deliveries| && s.deliveries[d].phase.ExecutionCreated? && k in s.iterations ==>
          s.iterations[k] != s.deliveries[d].phase.execution)
  }

  /** The executions of seeds are used by nobody else. */
  ghost predicate SeedsFresh(s: State) {
    && (forall c :: c in s.seeds ==> s.seeds[c] < s.nextExecution)
    && (forall c, d :: c in s.seeds && d in s.seeds && c != d ==> s.seeds[c] != s.seeds[d])
    && (forall c, k :: c in s.seeds && k in s.iterations ==> s.iterations[k] != s.seeds[c])
    && (forall c, d :: c in s.seeds && 0 <= d < |s.deliveries| && s.deliveries[d].HasExecution() ==>
          s.deliveries[d].phase.execution != s.seeds[c])
  }

  ghost predicate SpawnsRecorded(s: State) {
    && (forall i :: 0 <= i < |s.spawns| ==>
          && s.spawns[i].key in s.iterations
          && s.iterations[s.spawns[i].key] == s.spawns[i].execution
          && s.spawns[i].key.1 >= 2)
    && (forall i, j :: 0 <= i < j < |s.spawns| ==> s.spawns[i].execution != s.spawns[j].execution)
    && (forall d :: 0 <= d < |s.deliveries| && s.deliveries[d].phase.RowInserted? ==>
          && s.deliveries[d].Key() in s.iterations
          && s.iterations[s.deliveries[d].Key()] == s.deliveries[d].phase.execution)
    && (forall i, d :: 0 <= i < |s.spawns| && 0 <= d < |s.deliveries| && s.deliveries[d].HasExecution() ==>
          s.spawns[i].execution != s.deliveries[d].phase.execution)
  }

  ghost predicate Inv(s: State) {
    Contiguous(s) && PreviousKnown(s) && ExecutionsFresh(s) && SeedsFresh(s) && SpawnsRecorded(s)
  }

  lemma SameRows(s: State, s': State)
    requires Contiguous(s) && s'.iterations == s.iterations && s'.seeds == s.seeds
    requires s.campaigns.Keys <= s'.campaigns.Keys
    ensures Contiguous(s')
  {
    forall c: CampaignId
      ensures Numbered(s', c)
    {
      assert Numbered(s, c);
      var n: nat :| NumberedTo(s, c, n);
      assert NumberedTo(s', c, n);
    }
  }

  lemma InsertKeepsNumbers(s: State, d: nat)
    requires Inv(s) && d < |s.deliveries|
    ensures Contiguous(InsertStep(s, d))
  {
    var s', now := InsertStep(s, d), s.deliveries[d];
    if now.phase.ExecutionCreated? && now.Key() !in s.iterations {
      forall c: CampaignId
        ensures Numbered(s', c)
      {
        assert Numbered(s, c);
        var n: nat :| NumberedTo(s, c, n);
        if c == now.campaign {
          assert (c, now.previous) in s.iterations;
          assert now.previous == n;
          assert NumberedTo(s', c, n + 1);
        } else {
          assert NumberedTo(s', c, n);
        }
      }
    } else {
      SameRows(s, s');
    }
  }

  lemma StartKeepsNumbers(s: State, e: Event)
    requires Contiguous(s) && Starts(e)
    ensures Contiguous(StartStep(s, e))
  {
    var s' := StartStep(s, e);
    forall c: CampaignId
      ensures Numbered(s', c)
    {
      assert Numbered(s, c);
      var n: nat :| NumberedTo(s, c, n);
      assert NumberedTo(s', c, if e.SeedIteration? && c == e.c && c in s.seeds then 1 else n);
    }
  }

  lemma TablesAreKept(s: State, e: Event)
    requires !Starts(e) && !e.InsertRow?
    ensures
      var s' := Step(s, e);
      s'.iterations == s.iterations && s'.seeds == s.seeds && s.campaigns.Keys <= s'.campaigns.Keys
  {
    hide InsertStep, StartStep;
  }

  lemma StepKeepsNumbers(s: State, e: Event)
    requires Inv(s)
    ensures Contiguous(Step(s, e))
  {
    hide Contiguous, ExecutionsFresh, SeedsFresh, SpawnsRecorded;
    if Starts(e) {
      StartKeepsNumbers(s, e);
    } else if e.InsertRow? {
      if e.d < |s.deliveries| { InsertKeepsNumbers(s, e.d); }
    } else {
      TablesAreKept(s, e);
      hide Step;
      SameRows(s, Step(s, e));
    }
  }

  /** An event moves one delivery at most; a new one is just delivered. */
  lemma OthersStay(s: State, e: Event, d: nat)
    requires d < |Step(s, e).deliveries| && !(OfDelivery(e) && e.d == d)
    ensures if d < |s.deliveries| then Step(s, e).deliveries[d] == s.deliveries[d]
            else Step(s, e).deliveries[d].phase.Delivered?
  {
  }

  /** What may happen to a delivery in one step. */
  ghost predicate MovesOn(s: State, s': State, d: nat)
    requires d < |s.deliveries|
  {
    && |s'.deliveries| == |s.deliveries|
    && var now, next := s.deliveries[d], s'.deliveries[d];
       && next.campaign == now.campaign && next.previous == now.previous
       && (next.PastCheck() ==> now.PastCheck() || (now.campaign, now.previous) in s.iterations)
       && (next.HasExecution() ==>
             || next.phase.execution == s.nextExecution
             || (now.HasExecution() && now.phase.execution == next.phase.execution))
  }

  lemma StepsMoveOn(s: State, d: nat, ok: bool)
    requires d < |s.deliveries|
    ensures MovesOn(s, CreateStep(s, d, ok), d) && MovesOn(s, MarkStep(s, d, ok), d)
    ensures MovesOn(s, InsertStep(s, d), d) && MovesOn(s, SpawnStep(s, d, ok), d)
  {
  }

  lemma NextPhaseMovesOn(s: State, e: Event)
    requires OnlyMoves(e) && e.d < |s.deliveries|
    ensures MovesOn(s, SetPhase(s, e.d, NextPhase(s, e)), e.d)
  {
  }

  lemma DeliveryMoves(s: State, e: Event)
    requires OfDelivery(e) && e.d < |s.deliveries|
    ensures MovesOn(s, Step(s, e), e.d)
  {
    hide MovesOn, CreateStep, MarkStep, InsertStep, SpawnStep, NextPhase, SetPhase;
    if OnlyMoves(e) {
      NextPhaseMovesOn(s, e);
    } else {
      StepsMoveOn(s, e.d, if e.InsertRow? then true else e.ok);
    }
  }

  /** A delivery passes the check only with its previous iteration on record. */
  lemma CheckIsEarned(s: State, e: Event, d: nat)
    requires d < |Step(s, e).deliveries| && Step(s, e).deliveries[d].PastCheck()
    ensures
      var now := Step(s, e).deliveries[d];
      || (now.campaign, now.previous) in s.iterations
      || (d < |s.deliveries| && s.deliveries[d].PastCheck()
          && s.deliveries[d].campaign == now.campaign && s.deliveries[d].previous == now.previous)
  {
    hide DeliveryStep, StartStep;
    if OfDelivery(e) && e.d == d {
      if d < |s.deliveries| { DeliveryMoves(s, e); }
    } else {
      OthersStay(s, e, d);
    }
  }

  lemma RowsGrow(s: State, e: Event)
    ensures s.iterations.Keys <= Step(s, e).iterations.Keys
  {
  }

  lemma StepKeepsPrevious(s: State, e: Event)
    requires Inv(s)
    ensures PreviousKnown(Step(s, e))
  {
    hide Step, Contiguous, ExecutionsFresh, SeedsFresh, SpawnsRecorded;
    var s' := Step(s, e);
    RowsGrow(s, e);
    forall d | 0 <= d < |s'.deliveries| && s'.deliveries[d].PastCheck()
      ensures (s'.deliveries[d].campaign, s'.deliveries[d].previous) in s'.iterations
    {
      CheckIsEarned(s, e, d);
    }
  }

  /** A step that takes no execution, inserts nothing and spawns nothing. */
  lemma QuietStep(s: State, s': State, d: nat, phase: Phase)
    requires ExecutionsFresh(s) && SpawnsRecorded(s) && d < |s.deliveries|
    requires !phase.ExecutionCreated? && !phase.RowInserted?
    requires s'.deliveries == s.deliveries[d := s.deliveries[d].(phase := phase)]
    requires s'.iterations == s.iterations && s'.nextExecution == s.nextExecution && s'.spawns == s.spawns
    ensures ExecutionsFresh(s') && SpawnsRecorded(s')
  {
  }

  lemma CreateKeepsFresh(s: State, d: nat)
    requires ExecutionsFresh(s) && SpawnsRecorded(s) && d < |s.deliveries|
    ensures
      var s' := SetPhase(s, d, ExecutionCreated(s.nextExecution)).(nextExecution := s.nextExecution + 1);
      ExecutionsFresh(s') && SpawnsRecorded(s')
  {
    forall i | 0 <= i < |s.spawns|
      ensures s.spawns[i].execution < s.nextExecution
    {
    }
  }

  lemma InsertKeepsFresh(s: State, d: nat)
    requires ExecutionsFresh(s) && SpawnsRecorded(s) && d < |s.deliveries|
    ensures ExecutionsFresh(InsertStep(s, d))
  {
    hide SpawnsRecorded;
  }

  lemma InsertKeepsSpawns(s: State, d: nat)
    requires ExecutionsFresh(s) && SpawnsRecorded(s) && d < |s.deliveries|
    ensures SpawnsRecorded(InsertStep(s, d))
  {
    hide ExecutionsFresh;
  }

  lemma SpawnKeepsSpawns(s: State, d: nat, ok: bool)
    requires ExecutionsFresh(s) && SpawnsRecorded(s) && d < |s.deliveries|
    requires s.deliveries[d].HasExecution() ==> s.deliveries[d].previous >= 1
    ensures SpawnsRecorded(SpawnStep(s, d, ok))
  {
  }

  lemma SpawnKeepsFresh(s: State, d: nat, ok: bool)
    requires ExecutionsFresh(s) && d < |s.deliveries|
    ensures ExecutionsFresh(SpawnStep(s, d, ok))
  {
  }

  lemma StartKeepsFresh(s: State, e: Event)
    requires ExecutionsFresh(s) && SeedsFresh(s) && Starts(e)
    ensures ExecutionsFresh(StartStep(s, e))
  {
  }

  lemma StartKeepsSpawns(s: State, e: Event)
    requires SpawnsRecorded(s) && Starts(e)
    requires e.SeedIteration? && e.c in s.seeds ==> (e.c, 1) !in s.iterations
    ensures SpawnsRecorded(StartStep(s, e))
  {
  }

  lemma StartKeepsSeeds(s: State, e: Event)
    requires ExecutionsFresh(s) && SeedsFresh(s) && Starts(e)
    ensures SeedsFresh(StartStep(s, e))
  {
  }

  lemma SeedMeansNoRow(s: State, c: CampaignId)
    requires Contiguous(s) && c in s.seeds
    ensures forall i: nat :: (c, i) !in s.iterations
  {
    assert Numbered(s, c);
    var n: nat :| NumberedTo(s, c, n);
  }

  /** Where the execution of a delivery comes from: it is new, or the delivery had it before. */
  ghost predicate OwnExecution(s: State, s': State, d: nat)
    requires d < |s'.deliveries|
  {
    s'.deliveries[d].HasExecution() ==>
      || s'.deliveries[d].phase.execution >= s.nextExecution
      || (d < |s.deliveries| && s.deliveries[d].HasExecution()
          && s.deliveries[d].phase.execution == s'.deliveries[d].phase.execution)
  }

  lemma ExecutionIsOwn(s: State, e: Event, d: nat)
    requires !Starts(e) && d < |Step(s, e).deliveries|
    ensures OwnExecution(s, Step(s, e), d)
  {
    hide DeliveryStep, StartStep;
    if OfDelivery(e) && e.d == d {
      if d < |s.deliveries| { DeliveryMoves(s, e); }
    } else {
      OthersStay(s, e, d);
    }
  }

  /** Where a row comes from: it was there, or a delivery inserted its own execution. */
  lemma RowIsOwn(s: State, e: Event, k: IterationKey)
    requires !Starts(e) && k in Step(s, e).iterations
    ensures
      || (k in s.iterations && s.iterations[k] == Step(s, e).iterations[k])
      || (e.InsertRow? && e.d < |s.deliveries| && s.deliveries[e.d].HasExecution()
          && s.deliveries[e.d].phase.execution == Step(s, e).iterations[k])
  {
    hide StartStep;
  }

  lemma SeedsAreKept(s: State, e: Event)
    requires !Starts(e)
    ensures Step(s, e).seeds == s.seeds && Step(s, e).nextExecution >= s.nextExecution
  {
    hide StartStep;
  }

  lemma DeliveryStepKeepsSeeds(s: State, e: Event)
    requires ExecutionsFresh(s) && SeedsFresh(s) && !Starts(e)
    ensures SeedsFresh(Step(s, e))
  {
    hide Step, ExecutionsFresh;
    var s' := Step(s, e);
    SeedsAreKept(s, e);
    forall d | 0 <= d < |s'.deliveries|
      ensures OwnExecution(s, s', d)
    {
      ExecutionIsOwn(s, e, d);
    }
    forall c, k | c in s'.seeds && k in s'.iterations
      ensures s'.iterations[k] != s'.seeds[c]
    {
      RowIsOwn(s, e, k);
    }
    forall c, d | c in s'.seeds && 0 <= d < |s'.deliveries| && s'.deliveries[d].HasExecution()
      ensures s'.deliveries[d].phase.execution != s'.seeds[c]
    {
      assert OwnExecution(s, s', d);
    }
  }

  lemma StepKeepsExecutions(s: State, e: Event)
    requires Inv(s)
    ensures ExecutionsFresh(Step(s, e)) && SpawnsRecorded(Step(s, e))
  {
    hide Contiguous, PreviousKnown, ExecutionsFresh, SeedsFresh, SpawnsRecorded;
    if e.Halt? || e.Deliver? {
      IdleStep(s, e);
    } else if Starts(e) {
      if e.SeedIteration? && e.c in s.seeds { SeedMeansNoRow(s, e.c); }
      StartKeepsFresh(s, e);
      StartKeepsSpawns(s, e);
    } else if e.d < |s.deliveries| {
      PreviousIsPositive(s, e.d);
      if e.CreateExecution? {
        CreateKeepsFresh(s, e.d);
        QuietStep(s, SetPhase(s, e.d, Errored), e.d, Errored);
      } else if e.InsertRow? {
        InsertKeepsFresh(s, e.d);
        InsertKeepsSpawns(s, e.d);
      } else if e.SpawnLeader? {
        SpawnKeepsFresh(s, e.d, e.ok);
        SpawnKeepsSpawns(s, e.d, e.ok);
      } else {
        var s' := Step(s, e);
        if s' != s { QuietStep(s, s', e.d, s'.deliveries[e.d].phase); }
      }
    }
  }

  /** At most a new delivery, which has no execution yet. */
  ghost predicate OnlyDelivers(s: State, s': State) {
    && s'.iterations == s.iterations && s'.nextExecution == s.nextExecution && s'.spawns == s.spawns
    && s.deliveries <= s'.deliveries
    && forall d :: |s.deliveries| <= d < |s'.deliveries| ==> s'.deliveries[d].phase.Delivered?
  }

  lemma DeliveryKeepsFresh(s: State, s': State)
    requires ExecutionsFresh(s) && OnlyDelivers(s, s')
    ensures ExecutionsFresh(s')
  {
  }

  lemma DeliveryKeepsSpawns(s: State, s': State)
    requires SpawnsRecorded(s) && OnlyDelivers(s, s')
    ensures SpawnsRecorded(s')
  {
  }

  lemma IdleStep(s: State, e: Event)
    requires ExecutionsFresh(s) && SpawnsRecorded(s)
    requires e.Halt? || e.Deliver?
    ensures ExecutionsFresh(Step(s, e)) && SpawnsRecorded(Step(s, e))
  {
    hide ExecutionsFresh, SpawnsRecorded;
    DeliveryKeepsFresh(s, Step(s, e));
    DeliveryKeepsSpawns(s, Step(s, e));
  }

  lemma StepKeepsInv(s: State, e: Event)
    requires Inv(s)
    ensures Inv(Step(s, e))
  {
    hide Step, Contiguous, PreviousKnown, ExecutionsFresh, SeedsFresh, SpawnsRecorded;
    StepKeepsNumbers(s, e);
    StepKeepsPrevious(s, e);
    StepKeepsExecutions(s, e);
    if Starts(e) { StartKeepsSeedsStep(s, e); } else { DeliveryStepKeepsSeeds(s, e); }
  }

  lemma StartKeepsSeedsStep(s: State, e: Event)
    requires ExecutionsFresh(s) && SeedsFresh(s) && Starts(e)
    ensures SeedsFresh(Step(s, e))
  {
    hide StartStep;
    StartKeepsSeeds(s, e);
  }

  lemma PreviousIsPositive(s: State, d: nat)
    requires Contiguous(s) && PreviousKnown(s) && d < |s.deliveries|
    ensures s.deliveries[d].HasExecution() ==> s.deliveries[d].previous >= 1
  {
    var c := s.deliveries[d].campaign;
    assert Numbered(s, c);
    var n: nat :| NumberedTo(s, c, n);
  }

  lemma {:induction false} RunKeepsInv(es: seq<Event>)
    ensures Inv(Run(es))
  {
    hide Step, Inv;
    if es == [] {
      InitialInv();
    } else {
      RunKeepsInv(es[..|es| - 1]);
      StepKeepsInv(Run(es[..|es| - 1]), es[|es| - 1]);
    }
  }

  lemma InitialInv()
    ensures Inv(INITIAL)
  {
    forall c: CampaignId
      ensures Numbered(INITIAL, c)
    {
      assert NumberedTo(INITIAL, c, 0);
    }
  }

  // ----- Main results -------------------------------------------------------

  /** The iterations of a campaign are 1..n for some n, whatever the jobs say. */
  lemma IterationsAreContiguous(es: seq<Event>, c: CampaignId)
    ensures Numbered(Run(es), c)
  {
    hide Run, Step, NumberedTo;
    RunKeepsInv(es);
  }

  /** An iteration gets at most one Ring Leader, so a failed spawn is never repeated. */
  lemma SpawnedAtMostOnce(es: seq<Event>, i: nat, j: nat)
    requires i < j < |Run(es).spawns|
    ensures Run(es).spawns[i].key != Run(es).spawns[j].key
    ensures Run(es).spawns[i].execution != Run(es).spawns[j].execution
  {
    hide Run, Step, Contiguous;
    RunKeepsInv(es);
  }

  /**
   * A spawned leader runs the execution recorded in the row of its iteration, so
   * an execution orphaned by a lost insert never gets one; and it follows a
   * recorded iteration.
   */
  lemma SpawnRunsRecordedExecution(es: seq<Event>, i: nat)
    requires i < |Run(es).spawns|
    ensures
      var s, spawn := Run(es), Run(es).spawns[i];
      && Lookup(s.iterations, spawn.key) == Some(spawn.execution)
      && spawn.key.1 >= 2 && (spawn.key.0, spawn.key.1 - 1) in s.iterations
      && forall k :: k in s.iterations && s.iterations[k] == spawn.execution ==> k == spawn.key
  {
    hide Run, Step;
    RunKeepsInv(es);
    var s, spawn := Run(es), Run(es).spawns[i];
    assert Numbered(s, spawn.key.0);
    var n: nat :| NumberedTo(s, spawn.key.0, n);
    assert spawn.key in s.iterations;
    assert spawn.key == (spawn.key.0, spawn.key.1);
  }

  /** Rows are never rewritten, by any later delivery. */
  lemma {:induction false} RowsArePermanent(es: seq<Event>, more: seq<Event>, k: IterationKey)
    requires k in Run(es).iterations
    ensures Lookup(Run(es + more).iterations, k) == Some(Run(es).iterations[k])
  {
    hide Inv;
    if more == [] {
      assert es + more == es;
    } else {
      var init := more[..|more| - 1];
      assert (es + more)[..|es + more| - 1] == es + init;
      RowsArePermanent(es, init, k);
      StepKeepsRow(Run(es + init), more[|more| - 1], k, es + init);
    }
  }

  lemma StepKeepsRow(s: State, e: Event, k: IterationKey, es: seq<Event>)
    requires s == Run(es) && k in s.iterations
    ensures Lookup(Step(s, e).iterations, k) == Some(s.iterations[k])
  {
    hide Run, NumberedTo;
    RunKeepsInv(es);
    if e.SeedIteration? && e.c in s.seeds {
      SeedMeansNoRow(s, e.c);
      assert k == (k.0, k.1);
    }
  }

  /** Started to the end and stopped, with no delivery between the reload and its end. */
  ghost predicate Quiet(s: State, c: CampaignId) {
    && Lookup(s.campaigns, c) == Some(Stopped) && c !in s.seeds && (c, 1) in s.iterations
    && forall d :: 0 <= d < |s.deliveries| && s.deliveries[d].campaign == c ==>
         s.deliveries[d].phase.Delivered? || s.deliveries[d].phase.Errored? || s.deliveries[d].phase.Finished?
  }

  function SpawnsOf(spawns: seq<Spawn>, c: CampaignId): seq<Spawn> {
    if spawns == [] then []
    else
      SpawnsOf(spawns[..|spawns| - 1], c)
      + (if spawns[|spawns| - 1].key.0 == c then [spawns[|spawns| - 1]] else [])
  }

  /** Nothing of campaign c was added between s and s'. */
  ghost predicate Untouched(s: State, s': State, c: CampaignId) {
    && SpawnsOf(s'.spawns, c) == SpawnsOf(s.spawns, c)
    && forall i: nat :: Lookup(s'.iterations, (c, i)) == Lookup(s.iterations, (c, i))
  }

  lemma QuietStays(s: State, e: Event, c: CampaignId)
    requires Quiet(s, c)
    ensures Quiet(Step(s, e), c)
  {
  }

  lemma QuietAddsNoRow(s: State, e: Event, c: CampaignId, i: nat)
    requires Quiet(s, c)
    ensures Lookup(Step(s, e).iterations, (c, i)) == Lookup(s.iterations, (c, i))
  {
  }

  lemma QuietAddsNoSpawn(s: State, e: Event, c: CampaignId)
    requires Quiet(s, c)
    ensures SpawnsOf(Step(s, e).spawns, c) == SpawnsOf(s.spawns, c)
  {
    var s' := Step(s, e);
    if s'.spawns != s.spawns {
      assert s'.spawns[..|s'.spawns| - 1] == s.spawns;
    }
  }

  lemma QuietIsUntouched(s: State, e: Event, c: CampaignId)
    requires Quiet(s, c)
    ensures Untouched(s, Step(s, e), c)
  {
    hide Quiet, Step, SpawnsOf;
    QuietAddsNoSpawn(s, e, c);
    forall i: nat {
      QuietAddsNoRow(s, e, c, i);
    }
  }

  /**
   * Halting takes effect: once a stopped campaign, fully started, has no delivery
   * past its reload, no later job, however often redelivered, adds an iteration or spawns
   * a leader.
   */
  lemma {:induction false} StoppedCampaignIsQuiet(es: seq<Event>, more: seq<Event>, c: CampaignId)
    requires Quiet(Run(es), c)
    ensures Quiet(Run(es + more), c) && Untouched(Run(es), Run(es + more), c)
  {
    hide Step, Quiet, SpawnsOf;
    if more == [] {
      assert es + more == es;
    } else {
      var init := more[..|more| - 1];
      assert (es + more)[..|es + more| - 1] == es + init;
      StoppedCampaignIsQuiet(es, init, c);
      QuietStays(Run(es + init), more[|more| - 1], c);
      QuietIsUntouched(Run(es + init), more[|more| - 1], c);
    }
  }

  // ----- What the events of a run did -----------------------------------------

  lemma RunOne(es: seq<Event>, e: Event)
    ensures Run(es + [e]) == Step(Run(es), e)
  {
    hide Step;
    assert (es + [e])[..|es|] == es;
  }

  /** What goes wrong in an event, for which delivery. */
  predicate FailsNow(s: State, e: Event, d: nat) {
    && d < |s.deliveries|
    && match s.deliveries[d].phase
       case PreviousFound => e == Plan(d, false)
       case Planned => e == Preflight(d, false)
       case PreflightPassed => e == CreateExecution(d, false)
       case RowInserted(_) => e == SpawnLeader(d, false)
       case _ => false
  }

  /** An event that stops a running campaign: an outside halt, or an error that was marked. */
  predicate StopsNow(s: State, e: Event, c: CampaignId) {
    && c in s.campaigns
    && (e == Halt(c)
        || (e.MarkErrored? && e.ok && e.d < |s.deliveries|
            && s.deliveries[e.d].phase == Errored && s.deliveries[e.d].campaign == c))
  }

  ghost predicate FailedBy(es: seq<Event>, d: nat) {
    exists j :: 0 <= j < |es| && FailsNow(Run(es[..j]), es[j], d)
  }

  ghost predicate StoppedBy(es: seq<Event>, c: CampaignId) {
    exists j :: 0 <= j < |es| && StopsNow(Run(es[..j]), es[j], c)
  }

  lemma FailedByOneMore(es: seq<Event>, e: Event, d: nat)
    ensures FailedBy(es + [e], d) <==> FailedBy(es, d) || FailsNow(Run(es), e, d)
  {
    hide Run;
    var longer := es + [e];
    assert longer[..|es|] == es;
    forall j | 0 <= j < |es|
      ensures longer[..j] == es[..j]
    {
    }
    if FailsNow(Run(es), e, d) { assert FailsNow(Run(longer[..|es|]), longer[|es|], d); }
    if FailedBy(es, d) {
      var j :| 0 <= j < |es| && FailsNow(Run(es[..j]), es[j], d);
      assert FailsNow(Run(longer[..j]), longer[j], d);
    }
  }

  lemma StoppedByOneMore(es: seq<Event>, e: Event, c: CampaignId)
    ensures StoppedBy(es + [e], c) <==> StoppedBy(es, c) || StopsNow(Run(es), e, c)
  {
    hide Run;
    var longer := es + [e];
    assert longer[..|es|] == es;
    forall j | 0 <= j < |es|
      ensures longer[..j] == es[..j]
    {
    }
    if StopsNow(Run(es), e, c) { assert StopsNow(Run(longer[..|es|]), longer[|es|], c); }
    if StoppedBy(es, c) {
      var j :| 0 <= j < |es| && StopsNow(Run(es[..j]), es[j], c);
      assert StopsNow(Run(longer[..j]), longer[j], c);
    }
  }

  lemma ErrorStep(s: State, e: Event, d: nat)
    requires d < |Step(s, e).deliveries| && Step(s, e).deliveries[d].phase == Errored
    ensures (d < |s.deliveries| && s.deliveries[d].phase == Errored) || FailsNow(s, e, d)
  {
    hide StartStep;
    if !(OfDelivery(e) && e.d == d) { OthersStay(s, e, d); }
  }

  lemma FailureErrs(s: State, e: Event, d: nat)
    requires FailsNow(s, e, d)
    ensures d < |Step(s, e).deliveries| && Step(s, e).deliveries[d].phase == Errored
  {
  }

  /** A delivery is in error only because planning, pre-flight, creation or the spawn failed for it. */
  lemma {:induction false} ErrorsAreFailures(es: seq<Event>, d: nat)
    requires d < |Run(es).deliveries| && Run(es).deliveries[d].phase == Errored
    ensures FailedBy(es, d)
  {
    if es != [] {
      var init, e := es[..|es| - 1], es[|es| - 1];
      assert es == init + [e];
      RunOne(init, e);
      ErrorStep(Run(init), e, d);
      hide Run, Step;
      FailedByOneMore(init, e, d);
      if !FailsNow(Run(init), e, d) { ErrorsAreFailures(init, d); }
    }
  }

  lemma StatusStep(s: State, e: Event, c: CampaignId)
    ensures
      Lookup(Step(s, e).campaigns, c) ==
      if StopsNow(s, e, c) then Some(Stopped)
      else if c !in s.campaigns && e == InsertCampaign(c) then Some(Running)
      else Lookup(s.campaigns, c)
  {
    hide NextPhase;
  }

  /** A campaign is stopped if and only if it was halted from outside or an error of a delivery of it was marked. */
  lemma {:induction false} StoppedIffHaltedOrErrored(es: seq<Event>, c: CampaignId)
    ensures Lookup(Run(es).campaigns, c) == Some(Stopped) <==> StoppedBy(es, c)
  {
    if es != [] {
      var init, e := es[..|es| - 1], es[|es| - 1];
      assert es == init + [e];
      RunOne(init, e);
      StatusStep(Run(init), e, c);
      hide Run, Step;
      StoppedByOneMore(init, e, c);
      StoppedIffHaltedOrErrored(init, c);
    }
  }

  predicate Occurs(es: seq<Event>, e: Event) {
    exists j :: 0 <= j < |es| && es[j] == e
  }

  /** What a delivery has behind it. */
  ghost predicate Earned(es: seq<Event>, p: Phase, d: nat) {
    && (p.Planned? || p.PreflightPassed? || p.ExecutionCreated? || p.RowInserted? ==>
          Occurs(es, Reload(d)) && Occurs(es, LoadPrevious(d)) && Occurs(es, Plan(d, true)))
    && (p.Reloaded? || p.PreviousFound? ==> Occurs(es, Reload(d)))
    && (p.PreviousFound? ==> Occurs(es, LoadPrevious(d)))
    && (p.PreflightPassed? || p.ExecutionCreated? || p.RowInserted? ==> Occurs(es, Preflight(d, true)))
    && (p.ExecutionCreated? || p.RowInserted? ==> Occurs(es, CreateExecution(d, true)))
    && (p.RowInserted? ==> Occurs(es, InsertRow(d)))
  }

  lemma OccursStill(es: seq<Event>, e: Event, x: Event)
    ensures Occurs(es, x) || x == e ==> Occurs(es + [e], x)
  {
    if Occurs(es, x) {
      var j :| 0 <= j < |es| && es[j] == x;
      assert (es + [e])[j] == x;
    } else if x == e {
      assert (es + [e])[|es|] == x;
    }
  }

  lemma PhaseStep(s: State, e: Event, d: nat)
    requires d < |s.deliveries| && OfDelivery(e) && e.d == d
    ensures d < |Step(s, e).deliveries|
    ensures
      var p, q := s.deliveries[d].phase, Step(s, e).deliveries[d].phase;
      && (q.Reloaded? ==> q == p || e == Reload(d))
      && (q.PreviousFound? ==> q == p || (p.Reloaded? && e == LoadPrevious(d)))
      && (q.Planned? ==> q == p || (p.PreviousFound? && e == Plan(d, true)))
      && (q.PreflightPassed? ==> q == p || (p.Planned? && e == Preflight(d, true)))
      && (q.ExecutionCreated? ==> q == p || (p.PreflightPassed? && e == CreateExecution(d, true)))
      && (q.RowInserted? ==> q == p || (p.ExecutionCreated? && e == InsertRow(d)))
  {
  }

  lemma EarnedStill(es: seq<Event>, e: Event, p: Phase, d: nat)
    requires Earned(es, p, d)
    ensures Earned(es + [e], p, d)
  {
    hide Occurs;
    OccursStill(es, e, Reload(d));
    OccursStill(es, e, LoadPrevious(d));
    OccursStill(es, e, Plan(d, true));
    OccursStill(es, e, Preflight(d, true));
    OccursStill(es, e, CreateExecution(d, true));
    OccursStill(es, e, InsertRow(d));
  }

  lemma {:induction false} PhasesAreEarned(es: seq<Event>, d: nat)
    requires d < |Run(es).deliveries|
    ensures Earned(es, Run(es).deliveries[d].phase, d)
  {
    if es != [] {
      var init, e := es[..|es| - 1], es[|es| - 1];
      assert es == init + [e];
      RunOne(init, e);
      var s := Run(init);
      hide Run, Step, Occurs, Earned;
      if d < |s.deliveries| { PhasesAreEarned(init, d); }
      if OfDelivery(e) && e.d == d && d < |s.deliveries| {
        PhaseStep(s, e, d);
        EarnedStill(init, e, s.deliveries[d].phase, d);
        EarnedNow(init, e, s.deliveries[d].phase, Step(s, e).deliveries[d].phase, d);
      } else {
        NotMoved(s, e, d);
        if d < |s.deliveries| {
          EarnedStill(init, e, s.deliveries[d].phase, d);
        } else {
          EarnsNothing(es, d);
        }
      }
    }
  }

  lemma NotMoved(s: State, e: Event, d: nat)
    requires d < |Step(s, e).deliveries| && !(OfDelivery(e) && e.d == d && d < |s.deliveries|)
    ensures if d < |s.deliveries| then Step(s, e).deliveries[d] == s.deliveries[d]
            else Step(s, e).deliveries[d].phase == Delivered
  {
    if !(OfDelivery(e) && e.d == d) { OthersStay(s, e, d); }
  }

  lemma EarnsNothing(es: seq<Event>, d: nat)
    ensures Earned(es, Delivered, d)
  {
  }

  lemma EarnedNow(es: seq<Event>, e: Event, p: Phase, q: Phase, d: nat)
    requires Earned(es, p, d) && Earned(es + [e], p, d)
    requires
      && (q.Reloaded? ==> q == p || e == Reload(d))
      && (q.PreviousFound? ==> q == p || (p.Reloaded? && e == LoadPrevious(d)))
      && (q.Planned? ==> q == p || (p.PreviousFound? && e == Plan(d, true)))
      && (q.PreflightPassed? ==> q == p || (p.Planned? && e == Preflight(d, true)))
      && (q.ExecutionCreated? ==> q == p || (p.PreflightPassed? && e == CreateExecution(d, true)))
      && (q.RowInserted? ==> q == p || (p.ExecutionCreated? && e == InsertRow(d)))
    ensures Earned(es + [e], q, d)
  {
    hide Occurs;
    OccursStill(es, e, e);
  }

  /** Delivery d made spawn i, after all that comes before a spawn. */
  ghost predicate SpawnedBy(es: seq<Event>, spawn: Spawn, d: nat) {
    && Occurs(es, Reload(d)) && Occurs(es, LoadPrevious(d)) && Occurs(es, Plan(d, true))
    && Occurs(es, Preflight(d, true)) && Occurs(es, CreateExecution(d, true)) && Occurs(es, InsertRow(d))
    && Occurs(es, SpawnLeader(d, spawn.ok))
    && d < |Run(es).deliveries|
    && spawn.key == (Run(es).deliveries[d].campaign, Run(es).deliveries[d].previous + 1)
  }

  lemma SpawnsStep(s: State, e: Event)
    ensures
      || Step(s, e).spawns == s.spawns
      || (e.SpawnLeader? && e.d < |s.deliveries| && s.deliveries[e.d].phase.RowInserted?
          && Step(s, e).spawns == s.spawns + [Spawn((s.deliveries[e.d].campaign, s.deliveries[e.d].previous + 1),
                                                    s.deliveries[e.d].phase.execution, e.ok)])
  {
    hide NextPhase;
  }

  lemma DeliveriesKeepKeys(s: State, e: Event, d: nat)
    requires d < |s.deliveries|
    ensures d < |Step(s, e).deliveries|
    ensures Step(s, e).deliveries[d].campaign == s.deliveries[d].campaign
    ensures Step(s, e).deliveries[d].previous == s.deliveries[d].previous
  {
  }

  lemma SpawnedByStill(es: seq<Event>, e: Event, spawn: Spawn, d: nat)
    requires SpawnedBy(es, spawn, d)
    ensures SpawnedBy(es + [e], spawn, d)
  {
    RunOne(es, e);
    DeliveriesKeepKeys(Run(es), e, d);
    hide Run, Step, Occurs;
    OccursStill(es, e, Reload(d));
    OccursStill(es, e, LoadPrevious(d));
    OccursStill(es, e, Plan(d, true));
    OccursStill(es, e, Preflight(d, true));
    OccursStill(es, e, CreateExecution(d, true));
    OccursStill(es, e, InsertRow(d));
    OccursStill(es, e, SpawnLeader(d, spawn.ok));
  }

  /**
   * Every spawn, with the outcome reported for it, was made by a delivery that
   * reloaded the campaign, found the previous iteration, planned, passed the
   * pre-flight, created an execution and inserted the row.
   */
  lemma {:induction false} SpawnIsEarned(es: seq<Event>, i: nat) returns (d: nat)
    requires i < |Run(es).spawns|
    ensures SpawnedBy(es, Run(es).spawns[i], d)
  {
    assert es != [];
    var init, e := es[..|es| - 1], es[|es| - 1];
    assert es == init + [e];
    RunOne(init, e);
    var s := Run(init);
    SpawnsStep(s, e);
    hide Run, Step, Occurs, SpawnedBy;
    if i < |s.spawns| {
      d := SpawnIsEarned(init, i);
      SpawnedByStill(init, e, s.spawns[i], d);
    } else {
      d := e.d;
      PhasesAreEarned(init, d);
      SpawnedNow(init, e, s);
    }
  }

  lemma SpawnedNow(es: seq<Event>, e: Event, s: State)
    requires s == Run(es) && e.SpawnLeader? && e.d < |s.deliveries| && s.deliveries[e.d].phase.RowInserted?
    requires Earned(es, s.deliveries[e.d].phase, e.d)
    ensures
      var now := s.deliveries[e.d];
      SpawnedBy(es + [e], Spawn((now.campaign, now.previous + 1), now.phase.execution, e.ok), e.d)
  {
    RunOne(es, e);
    DeliveriesKeepKeys(s, e, e.d);
    hide Run, Step, Occurs;
    EarnedStill(es, e, s.deliveries[e.d].phase, e.d);
    OccursStill(es, e, e);
  }

  // ----- Progress -------------------------------------------------------------

  /** The state with one more delivery, at a given phase. */
  function WithDelivery(s: State, c: CampaignId, n: nat, phase: Phase): State {
    s.(deliveries := s.deliveries + [Delivery(c, n, phase)])
  }

  lemma PhaseOfLast(s: State, c: CampaignId, n: nat, phase: Phase, next: Phase)
    ensures SetPhase(WithDelivery(s, c, n, phase), |s.deliveries|, next) == WithDelivery(s, c, n, next)
  {
  }

  lemma PassesChecks(s: State, c: CampaignId, n: nat)
    requires Lookup(s.campaigns, c) == Some(Running) && (c, n) in s.iterations
    ensures
      var d := |s.deliveries|;
      && Step(s, Deliver(c, n)) == WithDelivery(s, c, n, Delivered)
      && Step(WithDelivery(s, c, n, Delivered), Reload(d)) == WithDelivery(s, c, n, Reloaded)
      && Step(WithDelivery(s, c, n, Reloaded), LoadPrevious(d)) == WithDelivery(s, c, n, PreviousFound)
      && Step(WithDelivery(s, c, n, PreviousFound), Plan(d, true)) == WithDelivery(s, c, n, Planned)
      && Step(WithDelivery(s, c, n, Planned), Preflight(d, true)) == WithDelivery(s, c, n, PreflightPassed)
  {
    PhaseOfLast(s, c, n, Delivered, Reloaded);
    PhaseOfLast(s, c, n, Reloaded, PreviousFound);
    PhaseOfLast(s, c, n, PreviousFound, Planned);
    PhaseOfLast(s, c, n, Planned, PreflightPassed);
    hide SetPhase;
  }

  /** The state after the whole delivery: one more iteration, its execution, its spawn. */
  function Followed(s: State, c: CampaignId, n: nat, ok: bool): State {
    WithDelivery(s, c, n, if ok then Finished else Errored)
    .(iterations := s.iterations[(c, n + 1) := s.nextExecution], nextExecution := s.nextExecution + 1,
      spawns := s.spawns + [Spawn((c, n + 1), s.nextExecution, ok)])
  }

  lemma Creates(s: State, c: CampaignId, n: nat)
    ensures
      Step(WithDelivery(s, c, n, PreflightPassed), CreateExecution(|s.deliveries|, true))
      == WithDelivery(s.(nextExecution := s.nextExecution + 1), c, n, ExecutionCreated(s.nextExecution))
  {
    PhaseOfLast(s, c, n, PreflightPassed, ExecutionCreated(s.nextExecution));
    hide SetPhase;
  }

  lemma Inserts(s: State, c: CampaignId, n: nat, x: ExecutionId)
    requires (c, n + 1) !in s.iterations
    ensures
      Step(WithDelivery(s, c, n, ExecutionCreated(x)), InsertRow(|s.deliveries|))
      == WithDelivery(s.(iterations := s.iterations[(c, n + 1) := x]), c, n, RowInserted(x))
  {
    PhaseOfLast(s, c, n, ExecutionCreated(x), RowInserted(x));
    hide SetPhase;
  }

  lemma Spawns(s: State, c: CampaignId, n: nat, x: ExecutionId, ok: bool)
    ensures
      Step(WithDelivery(s, c, n, RowInserted(x)), SpawnLeader(|s.deliveries|, ok))
      == WithDelivery(s.(spawns := s.spawns + [Spawn((c, n + 1), x, ok)]), c, n, if ok then Finished else Errored)
  {
    PhaseOfLast(s, c, n, RowInserted(x), if ok then Finished else Errored);
    hide SetPhase;
  }

  lemma CreatesAndSpawns(s: State, c: CampaignId, n: nat, ok: bool)
    requires (c, n + 1) !in s.iterations
    ensures
      var d, x := |s.deliveries|, s.nextExecution;
      var created := s.(nextExecution := x + 1);
      var inserted := created.(iterations := s.iterations[(c, n + 1) := x]);
      && Step(WithDelivery(s, c, n, PreflightPassed), CreateExecution(d, true))
         == WithDelivery(created, c, n, ExecutionCreated(x))
      && Step(WithDelivery(created, c, n, ExecutionCreated(x)), InsertRow(d))
         == WithDelivery(inserted, c, n, RowInserted(x))
      && Step(WithDelivery(inserted, c, n, RowInserted(x)), SpawnLeader(d, ok)) == Followed(s, c, n, ok)
  {
    hide Step;
    var x := s.nextExecution;
    var created := s.(nextExecution := x + 1);
    Creates(s, c, n);
    Inserts(created, c, n, x);
    Spawns(created.(iterations := s.iterations[(c, n + 1) := x]), c, n, x, ok);
  }

  /**
   * From every reachable state in which a running campaign lacks the iteration after n, one
   * delivery adds it, with a new execution and one spawn, and changes nothing else.
   */
  lemma IterationFollows(es: seq<Event>, c: CampaignId, n: nat, ok: bool) returns (longer: seq<Event>)
    requires Lookup(Run(es).campaigns, c) == Some(Running)
    requires (c, n) in Run(es).iterations && (c, n + 1) !in Run(es).iterations
    ensures es <= longer && Run(longer) == Followed(Run(es), c, n, ok)
  {
    var s := Run(es);
    var d, x := |s.deliveries|, s.nextExecution;
    PassesChecks(s, c, n);
    CreatesAndSpawns(s, c, n, ok);
    hide Step, Run, WithDelivery, Followed;
    var e1 := es + [Deliver(c, n)];
    var e2 := e1 + [Reload(d)];
    var e3 := e2 + [LoadPrevious(d)];
    var e4 := e3 + [Plan(d, true)];
    var e5 := e4 + [Preflight(d, true)];
    var e6 := e5 + [CreateExecution(d, true)];
    var e7 := e6 + [InsertRow(d)];
    longer := e7 + [SpawnLeader(d, ok)];
    RunOne(es, Deliver(c, n));
    RunOne(e1, Reload(d));
    RunOne(e2, LoadPrevious(d));
    RunOne(e3, Plan(d, true));
    RunOne(e4, Preflight(d, true));
    RunOne(e5, CreateExecution(d, true));
    RunOne(e6, InsertRow(d));
    RunOne(e7, SpawnLeader(d, ok));
  }

  /** Campaigns of every length exist: iterations 1 to n, each after the first spawned once and well. */
  lemma {:induction false} CampaignOfAnyLength(c: CampaignId, n: nat) returns (es: seq<Event>)
    requires n >= 1
    ensures Lookup(Run(es).campaigns, c) == Some(Running)
    ensures forall i: nat :: (c, i) in Run(es).iterations <==> 1 <= i <= n
    ensures |Run(es).spawns| == n - 1
    ensures forall i :: 0 <= i < n - 1 ==>
              && Run(es).spawns[i].key == (c, i + 2) && Run(es).spawns[i].ok
              && Lookup(Run(es).iterations, (c, i + 2)) == Some(Run(es).spawns[i].execution)
  {
    if n == 1 {
      assert Run([]) == INITIAL;
      var e1 := [] + [InsertCampaign(c)];
      var e2 := e1 + [SeedExecution(c)];
      es := e2 + [SeedIteration(c)];
      hide Run;
      RunOne([], InsertCampaign(c));
      RunOne(e1, SeedExecution(c));
      RunOne(e2, SeedIteration(c));
    } else {
      hide Run, Step;
      var before := CampaignOfAnyLength(c, n - 1);
      es := IterationFollows(before, c, n - 1, true);
    }
  }

  // ----- The worker, updating shared state in place --------------------------

  class EvolutionCampaignWorker {
    var campaigns: map<CampaignId, Status>
    var seeds: map<CampaignId, ExecutionId>
    var iterations: map<IterationKey, ExecutionId>
    var nextExecution: ExecutionId
    var deliveries: seq<Delivery>
    var spawns: seq<Spawn>

    ghost function Abs(): State
      reads this
    {
      State(campaigns, seeds, iterations, nextExecution, deliveries, spawns)
    }

    constructor ()
      ensures Abs() == INITIAL
    {
      campaigns, seeds, iterations, nextExecution, deliveries, spawns := map[], map[], map[], 0, [], [];
    }

    method SetPhase(d: nat, phase: Phase)
      requires d < |deliveries|
      modifies this`deliveries
      ensures deliveries == old(deliveries)[d := old(deliveries)[d].(phase := phase)]
    {
      deliveries := deliveries[d := deliveries[d].(phase := phase)];
    }

    method Reload(d: nat)
      requires d < |deliveries|
      modifies this
      ensures Abs() == DeliveryStep(old(Abs()), Event.Reload(d))
    {
      if deliveries[d].phase.Delivered? {
        var c := deliveries[d].campaign;
        SetPhase(d, if c in campaigns && campaigns[c] == Running then Reloaded else Finished);
      }
    }

    method LoadPrevious(d: nat)
      requires d < |deliveries|
      modifies this
      ensures Abs() == DeliveryStep(old(Abs()), Event.LoadPrevious(d))
    {
      if deliveries[d].phase.Reloaded? {
        var known := (deliveries[d].campaign, deliveries[d].previous) in iterations;
        SetPhase(d, if known then PreviousFound else Finished);
      }
    }

    method CreateExecution(d: nat, ok: bool)
      requires d < |deliveries|
      modifies this
      ensures Abs() == DeliveryStep(old(Abs()), Event.CreateExecution(d, ok))
    {
      if deliveries[d].phase.PreflightPassed? {
        if ok {
          SetPhase(d, ExecutionCreated(nextExecution));
          nextExecution := nextExecution + 1;
        } else {
          SetPhase(d, Errored);
        }
      }
    }

    method InsertIteration(d: nat) returns (inserted: bool)
      requires d < |deliveries|
      modifies this
      ensures Abs() == InsertStep(old(Abs()), d)
      ensures inserted == (old(deliveries)[d].phase.ExecutionCreated? && old(deliveries)[d].Key() !in old(iterations))
    {
      if !deliveries[d].phase.ExecutionCreated? {
        return false;
      }
      var key := deliveries[d].Key();
      inserted := key !in iterations;
      if inserted {
        iterations := iterations[key := deliveries[d].phase.execution];
        SetPhase(d, RowInserted(deliveries[d].phase.execution));
      } else {
        SetPhase(d, Finished);
      }
    }

    method SpawnRingLeader(d: nat, ok: bool)
      requires d < |deliveries|
      modifies this
      ensures Abs() == SpawnStep(old(Abs()), d, ok)
    {
      if deliveries[d].phase.RowInserted? {
        spawns := spawns + [Spawn(deliveries[d].Key(), deliveries[d].phase.execution, ok)];
        SetPhase(d, if ok then Finished else Errored);
      }
    }

    method MarkCampaignErrored(d: nat, ok: bool)
      requires d < |deliveries|
      modifies this
      ensures Abs() == DeliveryStep(old(Abs()), MarkErrored(d, ok))
    {
      if deliveries[d].phase.Errored? {
        if ok && deliveries[d].campaign in campaigns {
          campaigns := campaigns[deliveries[d].campaign := Stopped];
        }
        SetPhase(d, Finished);
      }
    }

    /** Every event, on the shared state. */
    method Perform(e: Event)
      modifies this
      ensures Abs() == Step(old(Abs()), e)
    {
      hide InsertStep, SpawnStep;
      match e
      case InsertCampaign(c) => if c !in campaigns { campaigns := campaigns[c := Running]; }
      case SeedExecution(c) =>
        if c in campaigns && c !in seeds && (c, 1) !in iterations {
          seeds := seeds[c := nextExecution];
          nextExecution := nextExecution + 1;
        }
      case SeedIteration(c) =>
        if c in seeds {
          iterations := iterations[(c, 1) := seeds[c]];
          seeds := seeds - {c};
        }
      case Halt(c) => if c in campaigns { campaigns := campaigns[c := Stopped]; }
      case Deliver(c, previous) => deliveries := deliveries + [Delivery(c, previous, Delivered)];
      case Reload(d) => if d < |deliveries| { Reload(d); }
      case LoadPrevious(d) => if d < |deliveries| { LoadPrevious(d); }
      case Plan(d, ok) =>
        if d < |deliveries| && deliveries[d].phase.PreviousFound? { SetPhase(d, if ok then Planned else Errored); }
      case Preflight(d, ok) =>
        if d < |deliveries| && deliveries[d].phase.Planned? { SetPhase(d, if ok then PreflightPassed else Errored); }
      case CreateExecution(d, ok) => if d < |deliveries| { CreateExecution(d, ok); }
      case InsertRow(d) => if d < |deliveries| { var inserted := InsertIteration(d); }
      case SpawnLeader(d, ok) => if d < |deliveries| { SpawnRingLeader(d, ok); }
      case MarkErrored(d, ok) => if d < |deliveries| { MarkCampaignErrored(d, ok); }
      case Crash(d) => if d < |deliveries| { SetPhase(d, Finished); }
    }
  }
}
