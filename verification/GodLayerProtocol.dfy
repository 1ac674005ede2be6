/**
 * The God Layer workers as an interleaving of atomic steps: jobs are delivered
 * any number of times, each delivery claims its verdict with a compare-and-set,
 * loads a snapshot, competes for the category lock, reads and then writes the
 * tables in one transaction, and releases the lock by compare-and-delete.
 * Deliveries may fail or crash anywhere.
 */
module GodLayerProtocol {
  import opened Prelude
  import opened ClassMachine
  import opened GodLayerDb
  import opened GodLayerHistory

  type JobId = string

  const LOCK_MAX_RETRIES := 20

  datatype JobData = JobData(
    verdictId: VerdictId,
    executionId: ExecutionId,
    botId: BotId,
    soulId: Option<SoulId>,
    taskCategory: Option<Category>)

  datatype VerdictRow = VerdictRow(
    verdictType: VerdictType,
    confidence: real,
    confirmed: bool,
    soulDriven: Option<bool>,
    unresolvedDA: bool,
    soulId: Option<SoulId>)

  datatype BotRow = BotRow(compositeScore: Option<real>)

  datatype SoulRow = SoulRow(taskCategory: Option<Category>)

  /** What the three queries before the lock happen to return. */
  datatype Loaded = Loaded(verdict: Option<VerdictRow>, bot: Option<BotRow>, soul: Option<SoulRow>)

  /**
   * The snapshot a job works from. None when the job stops here: the verdict or
   * the bot is missing, or no category is known.
   */
  function MakeSnapshot(d: JobData, l: Loaded): Option<Snapshot> {
    if l.verdict.None? || l.bot.None? then None
    else
      var v := l.verdict.value;
      var soulId := if d.soulId.Some? then d.soulId else v.soulId;
      var soulCategory := if HasSoul(soulId) && l.soul.Some? then l.soul.value.taskCategory else None;
      var category := if d.taskCategory.Some? then d.taskCategory else soulCategory;
      if category.None? then None
      else
        Some(Snapshot(
               d.verdictId, d.executionId, d.botId, soulId, category.value, v.verdictType, v.confidence,
               v.confirmed, v.soulDriven.GetOr(true), v.unresolvedDA, l.bot.value.compositeScore.GetOr(0.0)))
  }

  /** Where a delivery stands. It holds the category lock from Locked to Closing. */
  datatype Phase =
    | Delivered
    | Claimed
    | Waiting(snap: Snapshot, attempts: nat)
    | Locked(snap: Snapshot)
    | InTx(snap: Snapshot, rows: Reads)
    | Closing(snap: Snapshot)
    | Done

  datatype Proc = Proc(jobId: JobId, data: JobData, phase: Phase) {
    predicate Holds() {
      phase.Locked? || phase.InTx? || phase.Closing?
    }

    predicate Active() {
      phase.Claimed? || phase.Waiting? || Holds()
    }
  }

  /** commits is the history of committed snapshots, oldest first. */
  datatype State = State(
    queue: map<JobId, JobData>,
    procs: seq<Proc>,
    claimed: set<VerdictId>,
    locks: map<Category, JobId>,
    db: Db,
    commits: seq<Snapshot>)

  const INITIAL := State(map[], [], {}, map[], EMPTY_DB, [])

  datatype Event =
    | Enqueue(jobId: JobId, data: JobData)
    | Deliver(job: JobId)
    | Claim(w: nat)
    | Load(w: nat, loaded: Loaded)
    | TryLock(w: nat)
    | Renew(w: nat)
    | Read(w: nat)
    | Commit(w: nat)
    | Abort(w: nat)
    | Release(w: nat)
    | Crash(w: nat)
    | Expire(category: Category)

  function SetPhase(s: State, w: nat, phase: Phase): State
    requires w < |s.procs|
  {
    s.(procs := s.procs[w := s.procs[w].(phase := phase)])
  }

  /** UPDATE ... WHERE god_layer_processed_at IS NULL RETURNING id. */
  function ClaimStep(s: State, w: nat): State
    requires w < |s.procs|
  {
    var v := s.procs[w].data.verdictId;
    if !s.procs[w].phase.Delivered? then s
    else if v in s.claimed then SetPhase(s, w, Done)
    else SetPhase(s, w, Claimed).(claimed := s.claimed + {v})
  }

  function LoadStep(s: State, w: nat, loaded: Loaded): State
    requires w < |s.procs|
  {
    if !s.procs[w].phase.Claimed? then s
    else
      match MakeSnapshot(s.procs[w].data, loaded)
      case None => SetPhase(s, w, Done)
      case Some(snap) => SetPhase(s, w, Waiting(snap, 0))
  }

  /** SET key jobId NX; the twentieth failure ends the delivery. */
  function TryLockStep(s: State, w: nat): State
    requires w < |s.procs|
  {
    if !s.procs[w].phase.Waiting? then s
    else
      var Waiting(snap, attempts) := s.procs[w].phase;
      if snap.category !in s.locks then
        SetPhase(s, w, Locked(snap)).(locks := s.locks[snap.category := s.procs[w].jobId])
      else if attempts + 1 < LOCK_MAX_RETRIES then
        SetPhase(s, w, Waiting(snap, attempts + 1))
      else
        SetPhase(s, w, Done)
  }

  /** SET key jobId XX, without looking at the present owner. */
  function RenewStep(s: State, w: nat): State
    requires w < |s.procs|
  {
    if s.procs[w].Holds() && s.procs[w].phase.snap.category in s.locks then
      s.(locks := s.locks[s.procs[w].phase.snap.category := s.procs[w].jobId])
    else s
  }

  function ReadStep(s: State, w: nat): State
    requires w < |s.procs|
  {
    if !s.procs[w].phase.Locked? then s
    else
      var snap := s.procs[w].phase.snap;
      SetPhase(s, w, InTx(snap, ReadRows(s.db, snap)))
  }

  function CommitStep(s: State, w: nat): State
    requires w < |s.procs|
  {
    if !s.procs[w].phase.InTx? then s
    else
      var InTx(snap, rows) := s.procs[w].phase;
      SetPhase(s, w, Closing(snap)).(db := WriteBack(s.db, snap, rows), commits := s.commits + [snap])
  }

  /** An error rolls the transaction back and unwinds to the finally block. */
  function AbortStep(s: State, w: nat): State
    requires w < |s.procs|
  {
    var phase := s.procs[w].phase;
    if phase.Locked? || phase.InTx? then SetPhase(s, w, Closing(phase.snap))
    else if phase.Claimed? || phase.Waiting? then SetPhase(s, w, Done)
    else s
  }

  /** Compare-and-delete under the category named by the job, when it names one. */
  function ReleaseStep(s: State, w: nat): State
    requires w < |s.procs|
  {
    var p := s.procs[w];
    if !p.phase.Closing? then s
    else
      var s' := SetPhase(s, w, Done);
      if && p.data.taskCategory.Some?
         && p.data.taskCategory.value in s.locks
         && s.locks[p.data.taskCategory.value] == p.jobId then
        s'.(locks := s.locks - {p.data.taskCategory.value})
      else s'
  }

  predicate Held(s: State, c: Category) {
    exists w :: 0 <= w < |s.procs| && s.procs[w].Holds() && s.procs[w].phase.snap.category == c
  }

  /** One atomic step; an event that is not enabled changes nothing. */
  function Step(s: State, e: Event): State {
    match e
    case Enqueue(j, d) => if j in s.queue then s else s.(queue := s.queue[j := d])
    case Deliver(j) =>
      if j in s.queue then s.(procs := s.procs + [Proc(j, s.queue[j], Delivered)]) else s
    case Expire(c) => if Held(s, c) then s else s.(locks := s.locks - {c})
    case Claim(w) => if w < |s.procs| then ClaimStep(s, w) else s
    case Load(w, loaded) => if w < |s.procs| then LoadStep(s, w, loaded) else s
    case TryLock(w) => if w < |s.procs| then TryLockStep(s, w) else s
    case Renew(w) => if w < |s.procs| then RenewStep(s, w) else s
    case Read(w) => if w < |s.procs| then ReadStep(s, w) else s
    case Commit(w) => if w < |s.procs| then CommitStep(s, w) else s
    case Abort(w) => if w < |s.procs| then AbortStep(s, w) else s
    case Release(w) => if w < |s.procs| then ReleaseStep(s, w) else s
    case Crash(w) => if w < |s.procs| then SetPhase(s, w, Done) else s
  }

  /** Any interleaving of any deliveries. */
  function Run(es: seq<Event>): State {
    if es == [] then INITIAL else Step(Run(es[..|es| - 1]), es[|es| - 1])
  }

  // ----- The invariant ------------------------------------------------------

  predicate JobsKnown(s: State) {
    forall w :: 0 <= w < |s.procs| ==>
      s.procs[w].jobId in s.queue && s.queue[s.procs[w].jobId] == s.procs[w].data
  }

  predicate ClaimsExclusive(s: State) {
    && (forall w :: 0 <= w < |s.procs| && s.procs[w].Active() ==> s.procs[w].data.verdictId in s.claimed)
    && (forall w, x :: 0 <= w < x < |s.procs| && s.procs[w].Active() && s.procs[x].Active() ==>
          s.procs[w].data.verdictId != s.procs[x].data.verdictId)
  }

  predicate SnapshotOf(p: Proc) {
    p.phase.Waiting? || p.Holds() ==>
      && p.phase.snap.verdictId == p.data.verdictId
      && (p.data.taskCategory.Some? ==> p.phase.snap.category == p.data.taskCategory.value)
  }

  predicate SnapshotsMatch(s: State) {
    forall w :: 0 <= w < |s.procs| ==> SnapshotOf(s.procs[w])
  }

  predicate LocksOwned(s: State) {
    forall w :: 0 <= w < |s.procs| && s.procs[w].Holds() ==>
      && s.procs[w].phase.snap.category in s.locks
      && s.locks[s.procs[w].phase.snap.category] == s.procs[w].jobId
  }

  predicate ReadsCurrent(s: State) {
    forall w :: 0 <= w < |s.procs| && s.procs[w].phase.InTx? ==>
      s.procs[w].phase.rows == ReadRows(s.db, s.procs[w].phase.snap)
  }

  predicate Committed(s: State, v: VerdictId) {
    exists i :: 0 <= i < |s.commits| && s.commits[i].verdictId == v
  }

  predicate CommitsDistinct(s: State) {
    && (forall i :: 0 <= i < |s.commits| ==> s.commits[i].verdictId in s.claimed)
    && (forall i, j :: 0 <= i < j < |s.commits| ==> s.commits[i].verdictId != s.commits[j].verdictId)
    && (forall w :: 0 <= w < |s.procs| && s.procs[w].Active() && !s.procs[w].phase.Closing? ==>
          !Committed(s, s.procs[w].data.verdictId))
  }

  predicate Inv(s: State) {
    && JobsKnown(s)
    && ClaimsExclusive(s)
    && SnapshotsMatch(s)
    && LocksOwned(s)
    && ReadsCurrent(s)
    && CommitsDistinct(s)
    && s.db == Replay(s.commits)
  }

  /** Two deliveries never sit between acquire and release of one category. */
  lemma HoldersExclude(s: State, w: nat, x: nat)
    requires Inv(s) && w < x < |s.procs|
    requires s.procs[w].Holds() && s.procs[x].Holds()
    ensures s.procs[w].phase.snap.category != s.procs[x].phase.snap.category
  {
  }

  lemma SameCommits(s: State, s': State)
    requires s'.commits == s.commits
    ensures forall v :: Committed(s', v) == Committed(s, v)
  {
  }

  lemma ClaimKeepsInv(s: State, w: nat)
    requires Inv(s) && w < |s.procs|
    ensures Inv(ClaimStep(s, w))
  {
    hide Replay, ReadRows;
    var s' := ClaimStep(s, w);
    if s'.procs[w].phase.Claimed? && s.procs[w].phase.Delivered? {
      assert !Committed(s, s.procs[w].data.verdictId);
    }
    SameCommits(s, s');
  }

  lemma {:induction false} SamePhaseGroupKeepsInv(s: State, w: nat, phase: Phase)
    requires Inv(s) && w < |s.procs|
    requires
      var p := s.procs[w].(phase := phase);
      && SnapshotOf(p)
      && (p.Active() ==> s.procs[w].Active() && (s.procs[w].phase.Closing? ==> phase.Closing?))
      && (p.Holds() ==> s.procs[w].Holds() && phase.snap == s.procs[w].phase.snap)
      && (phase.InTx? ==> phase.rows == ReadRows(s.db, phase.snap))
    ensures Inv(SetPhase(s, w, phase))
  {
    hide Replay, ReadRows;
    var s' := SetPhase(s, w, phase);
    SameCommits(s, s');
  }

  lemma LoadKeepsInv(s: State, w: nat, loaded: Loaded)
    requires Inv(s) && w < |s.procs|
    ensures Inv(LoadStep(s, w, loaded))
  {
    hide Replay, ReadRows;
    if s.procs[w].phase.Claimed? {
      match MakeSnapshot(s.procs[w].data, loaded)
      case None => SamePhaseGroupKeepsInv(s, w, Done);
      case Some(snap) => SamePhaseGroupKeepsInv(s, w, Waiting(snap, 0));
    }
  }

  lemma LockChangeKeepsInv(s: State, locks: map<Category, JobId>)
    requires Inv(s)
    requires LocksOwned(s.(locks := locks))
    ensures Inv(s.(locks := locks))
  {
    hide Replay, ReadRows;
    var s' := s.(locks := locks);
    SameCommits(s, s');
  }

  lemma TryLockKeepsInv(s: State, w: nat)
    requires Inv(s) && w < |s.procs|
    ensures Inv(TryLockStep(s, w))
  {
    hide Replay, ReadRows;
    if s.procs[w].phase.Waiting? {
      var Waiting(snap, attempts) := s.procs[w].phase;
      var s' := TryLockStep(s, w);
      if snap.category !in s.locks {
        assert forall x :: 0 <= x < |s.procs| && s.procs[x].Holds() ==>
            s.procs[x].phase.snap.category != snap.category;
        SameCommits(s, s');
      } else if attempts + 1 < LOCK_MAX_RETRIES {
        SamePhaseGroupKeepsInv(s, w, Waiting(snap, attempts + 1));
      } else {
        SamePhaseGroupKeepsInv(s, w, Done);
      }
    }
  }

  /** The renewal names no owner, yet it never takes a lock from another delivery. */
  lemma RenewChangesNothing(s: State, w: nat)
    requires Inv(s) && w < |s.procs|
    ensures RenewStep(s, w) == s
  {
    hide Replay, ReadRows;
    if s.procs[w].Holds() {
      var c := s.procs[w].phase.snap.category;
      assert s.locks[c := s.procs[w].jobId] == s.locks;
    }
  }

  lemma ReleaseKeepsInv(s: State, w: nat)
    requires Inv(s) && w < |s.procs|
    ensures Inv(ReleaseStep(s, w))
  {
    hide Replay, ReadRows;
    var p := s.procs[w];
    if p.phase.Closing? {
      SamePhaseGroupKeepsInv(s, w, Done);
      var s1, s' := SetPhase(s, w, Done), ReleaseStep(s, w);
      forall x | 0 <= x < |s'.procs| && s'.procs[x].Holds()
        ensures && s'.procs[x].phase.snap.category in s'.locks
                && s'.locks[s'.procs[x].phase.snap.category] == s'.procs[x].jobId
      {
        assert s.procs[x] == s'.procs[x] && x != w;
        if x < w { HoldersExclude(s, x, w); } else { HoldersExclude(s, w, x); }
      }
      LockChangeKeepsInv(s1, s'.locks);
      assert s' == s1.(locks := s'.locks);
    }
  }

  lemma CommitKeepsInv(s: State, w: nat)
    requires Inv(s) && w < |s.procs| && s.procs[w].phase.InTx?
    ensures Inv(CommitStep(s, w))
  {
    hide ReadRows, WriteBack, Replay;
    var s' := CommitStep(s, w);
    var InTx(snap, rows) := s.procs[w].phase;
    ReplayAppend(s.commits, snap);
    assert SnapshotOf(s.procs[w]);
    forall x | 0 <= x < |s'.procs| && s'.procs[x].phase.InTx?
      ensures s'.procs[x].phase.rows == ReadRows(s'.db, s'.procs[x].phase.snap)
    {
      if x < w { HoldersExclude(s, x, w); } else { HoldersExclude(s, w, x); }
      WriteBackFrame(s.db, snap, rows, s.procs[x].phase.snap);
    }
    forall x | 0 <= x < |s'.procs| && s'.procs[x].Active() && !s'.procs[x].phase.Closing?
      ensures !Committed(s', s'.procs[x].data.verdictId)
    {
      var v := s'.procs[x].data.verdictId;
      assert v != snap.verdictId;
      assert Committed(s', v) ==> Committed(s, v);
    }
    assert !Committed(s, snap.verdictId);
  }

  lemma ReplayAppend(commits: seq<Snapshot>, snap: Snapshot)
    ensures Replay(commits + [snap]) == Serial(Replay(commits), snap)
  {
    hide Serial;
    assert (commits + [snap])[..|commits|] == commits;
  }

  lemma EnqueueKeepsInv(s: State, j: JobId, d: JobData)
    requires Inv(s) && j !in s.queue
    ensures Inv(s.(queue := s.queue[j := d]))
  {
    hide Replay, ReadRows;
    var s' := s.(queue := s.queue[j := d]);
    SameCommits(s, s');
  }

  lemma DeliverKeepsInv(s: State, j: JobId)
    requires Inv(s) && j in s.queue
    ensures Inv(Step(s, Deliver(j)))
  {
    hide Replay, ReadRows;
    var s' := Step(s, Deliver(j));
    SameCommits(s, s');
  }

  lemma {:induction false} StepKeepsInv(s: State, e: Event)
    requires Inv(s)
    ensures Inv(Step(s, e))
  {
    hide Replay, ReadRows, WriteBack;
    match e
    case Enqueue(j, d) => if j !in s.queue { EnqueueKeepsInv(s, j, d); }
    case Deliver(j) => if j in s.queue { DeliverKeepsInv(s, j); }
    case Expire(c) => if !Held(s, c) { LockChangeKeepsInv(s, s.locks - {c}); }
    case Claim(w) => if w < |s.procs| { ClaimKeepsInv(s, w); }
    case Load(w, loaded) => if w < |s.procs| { LoadKeepsInv(s, w, loaded); }
    case TryLock(w) => if w < |s.procs| { TryLockKeepsInv(s, w); }
    case Renew(w) => if w < |s.procs| { RenewChangesNothing(s, w); }
    case Read(w) =>
      if w < |s.procs| && s.procs[w].phase.Locked? {
        var snap := s.procs[w].phase.snap;
        assert SnapshotOf(s.procs[w]);
        SamePhaseGroupKeepsInv(s, w, InTx(snap, ReadRows(s.db, snap)));
      }
    case Commit(w) => if w < |s.procs| && s.procs[w].phase.InTx? { CommitKeepsInv(s, w); }
    case Abort(w) =>
      if w < |s.procs| {
        assert SnapshotOf(s.procs[w]);
        var phase := s.procs[w].phase;
        if phase.Locked? || phase.InTx? {
          SamePhaseGroupKeepsInv(s, w, Closing(phase.snap));
        } else {
          SamePhaseGroupKeepsInv(s, w, Done);
        }
      }
    case Release(w) => if w < |s.procs| { ReleaseKeepsInv(s, w); }
    case Crash(w) => if w < |s.procs| { SamePhaseGroupKeepsInv(s, w, Done); }
  }

  lemma {:induction false} RunKeepsInv(es: seq<Event>)
    ensures Inv(Run(es))
  {
    hide Step, Inv;
    if es == [] {
      InitialInv();
    } else {
      RunKeepsInv(es[..|es| - 1]);
      StepKeepsInv(Run(es[..|es| - 1]), es[|es| - 1]);
    }
  }

  lemma InitialInv()
    ensures Inv(INITIAL)
  {
  }

  // ----- Main results -------------------------------------------------------

  predicate HasSnapshot(p: Proc) {
    p.phase.Waiting? || p.Holds()
  }

  /** The snapshot of a job, field by field, from the rows it found. */
  predicate TakenFrom(snap: Snapshot, d: JobData, l: Loaded) {
    && l.verdict.Some? && l.bot.Some?
    && var v := l.verdict.value;
       && snap.verdictId == d.verdictId && snap.executionId == d.executionId && snap.botId == d.botId
       && snap.soulId == (if d.soulId.Some? then d.soulId else v.soulId)
       && (if d.taskCategory.Some? then snap.category == d.taskCategory.value
           else snap.soulId.GetOr("") != "" && l.soul.Some? && l.soul.value.taskCategory == Some(snap.category))
       && snap.verdictType == v.verdictType && snap.confidence == v.confidence
       && snap.confirmed == v.confirmed && snap.unresolvedDA == v.unresolvedDA
       && (snap.soulDriven <==> v.soulDriven != Some(false))
       && snap.score == (match l.bot.value.compositeScore case Some(score) => score case None => 0.0)
  }

  lemma SnapshotIsTaken(d: JobData, l: Loaded, snap: Snapshot)
    ensures MakeSnapshot(d, l) == Some(snap) <==> TakenFrom(snap, d, l)
  {
  }

  /** Event i loaded this snapshot, for a delivery that had claimed the verdict of its job. */
  ghost predicate LoadedBy(es: seq<Event>, i: nat, snap: Snapshot)
    requires i < |es|
  {
    && es[i].Load?
    && var s := Run(es[..i]);
       && es[i].w < |s.procs| && s.procs[es[i].w].phase.Claimed? && s.procs[es[i].w].jobId in s.queue
       && TakenFrom(snap, s.queue[s.procs[es[i].w].jobId], es[i].loaded)
  }

  ghost predicate WasLoaded(es: seq<Event>, snap: Snapshot) {
    exists i :: 0 <= i < |es| && LoadedBy(es, i, snap)
  }

  lemma StillLoaded(es: seq<Event>, e: Event, snap: Snapshot)
    requires WasLoaded(es, snap)
    ensures WasLoaded(es + [e], snap)
  {
    hide Run;
    var i :| 0 <= i < |es| && LoadedBy(es, i, snap);
    assert (es + [e])[..i] == es[..i];
    assert LoadedBy(es + [e], i, snap);
  }

  lemma LoadedNow(es: seq<Event>, i: nat, snap: Snapshot)
    requires i < |es| && LoadedBy(es, i, snap)
    ensures WasLoaded(es, snap)
  {
    hide Run;
  }

  /** A snapshot stays with its delivery; a new one comes from a load. */
  lemma SnapshotStays(s: State, e: Event, x: nat)
    requires x < |Step(s, e).procs| && HasSnapshot(Step(s, e).procs[x])
    ensures
      || (x < |s.procs| && HasSnapshot(s.procs[x]) && s.procs[x].phase.snap == Step(s, e).procs[x].phase.snap)
      || (e.Load? && e.w == x < |s.procs| && s.procs[x].phase.Claimed?
          && MakeSnapshot(s.procs[x].data, e.loaded) == Some(Step(s, e).procs[x].phase.snap))
  {
    hide WriteBack, ReadRows, MakeSnapshot;
  }

  /** A new commit comes from a delivery in its transaction. */
  lemma CommitFromDelivery(s: State, e: Event)
    ensures
      || Step(s, e).commits == s.commits
      || (e.Commit? && e.w < |s.procs| && s.procs[e.w].phase.InTx?
          && Step(s, e).commits == s.commits + [s.procs[e.w].phase.snap])
  {
    hide WriteBack, ReadRows, MakeSnapshot;
  }

  ghost predicate AllLoaded(es: seq<Event>, s: State) {
    && (forall x :: 0 <= x < |s.procs| && HasSnapshot(s.procs[x]) ==> WasLoaded(es, s.procs[x].phase.snap))
    && (forall i :: 0 <= i < |s.commits| ==> WasLoaded(es, s.commits[i]))
  }

  lemma ProcWasLoaded(es: seq<Event>, e: Event, s: State, x: nat)
    requires s == Run(es) && AllLoaded(es, s) && JobsKnown(s)
    requires x < |Step(s, e).procs| && HasSnapshot(Step(s, e).procs[x])
    ensures WasLoaded(es + [e], Step(s, e).procs[x].phase.snap)
  {
    hide Run, Step, WasLoaded;
    SnapshotStays(s, e, x);
    var snap := Step(s, e).procs[x].phase.snap;
    if x < |s.procs| && HasSnapshot(s.procs[x]) && s.procs[x].phase.snap == snap {
      StillLoaded(es, e, snap);
    } else {
      assert (es + [e])[..|es|] == es;
      SnapshotIsTaken(s.procs[x].data, e.loaded, snap);
      LoadedNow(es + [e], |es|, snap);
    }
  }

  lemma CommitWasLoaded(es: seq<Event>, e: Event, s: State, i: nat)
    requires s == Run(es) && AllLoaded(es, s) && i < |Step(s, e).commits|
    ensures WasLoaded(es + [e], Step(s, e).commits[i])
  {
    hide Run, Step, WasLoaded;
    CommitFromDelivery(s, e);
    StillLoaded(es, e, if i < |s.commits| then s.commits[i] else s.procs[e.w].phase.snap);
  }

  lemma {:induction false} SnapshotsWereLoaded(es: seq<Event>)
    ensures AllLoaded(es, Run(es))
  {
    hide Step, WasLoaded, Replay;
    if es != [] {
      var init, e := es[..|es| - 1], es[|es| - 1];
      SnapshotsWereLoaded(init);
      RunKeepsInv(init);
      assert es == init + [e];
      RunOne(init, e);
      hide Run;
      forall x | 0 <= x < |Run(es).procs| && HasSnapshot(Run(es).procs[x])
        ensures WasLoaded(es, Run(es).procs[x].phase.snap)
      {
        ProcWasLoaded(init, e, Run(init), x);
      }
      forall i | 0 <= i < |Run(es).commits|
        ensures WasLoaded(es, Run(es).commits[i])
      {
        CommitWasLoaded(init, e, Run(init), i);
      }
    }
  }

  /**
   * Every interleaving leaves the tables as one serial execution of its commits
   * would, and each commit is the snapshot that a delivery of a queued job loaded
   * after it had claimed the verdict.
   */
  lemma {:induction false} Serialisable(es: seq<Event>)
    ensures Run(es).db == Replay(Run(es).commits)
    ensures forall i :: 0 <= i < |Run(es).commits| ==> WasLoaded(es, Run(es).commits[i])
  {
    hide Replay, Step, Run;
    RunKeepsInv(es);
    SnapshotsWereLoaded(es);
  }

  /** However often it is delivered, a verdict takes effect at most once. */
  lemma {:induction false} AtMostOnce(es: seq<Event>, i: nat, j: nat)
    requires i < j < |Run(es).commits|
    ensures Run(es).commits[i].verdictId != Run(es).commits[j].verdictId
  {
    hide Replay, Step, Run;
    RunKeepsInv(es);
  }

  lemma {:induction false} MutualExclusion(es: seq<Event>, w: nat, x: nat)
    requires w < x < |Run(es).procs|
    requires Run(es).procs[w].Holds() && Run(es).procs[x].Holds()
    ensures Run(es).procs[w].phase.snap.category != Run(es).procs[x].phase.snap.category
  {
    hide Replay, Step, Run;
    RunKeepsInv(es);
    HoldersExclude(Run(es), w, x);
  }

  /** History is never rewritten: commits and DNA entries are only appended, baselines never move. */
  lemma StepOnlyAppends(s: State, e: Event)
    requires Inv(s)
    ensures s.commits <= Step(s, e).commits
    ensures s.db.dna <= Step(s, e).db.dna
    ensures forall c :: c in s.db.benchmarks ==>
              && c in Step(s, e).db.benchmarks
              && Step(s, e).db.benchmarks[c].baseline == s.db.benchmarks[c].baseline
              && Step(s, e).db.benchmarks[c].pioneerBot == s.db.benchmarks[c].pioneerBot
  {
    hide Replay, ComputeClassTransition, MaxVersion;
  }

  lemma {:induction false} RunOnlyAppends(es: seq<Event>, more: seq<Event>)
    ensures Run(es).commits <= Run(es + more).commits
    ensures Run(es).db.dna <= Run(es + more).db.dna
    ensures forall c :: c in Run(es).db.benchmarks ==>
              && c in Run(es + more).db.benchmarks
              && Run(es + more).db.benchmarks[c].baseline == Run(es).db.benchmarks[c].baseline
              && Run(es + more).db.benchmarks[c].pioneerBot == Run(es).db.benchmarks[c].pioneerBot
  {
    hide Step, Inv;
    if more == [] {
      assert es + more == es;
    } else {
      var init := more[..|more| - 1];
      assert (es + more)[..|es + more| - 1] == es + init;
      RunOnlyAppends(es, init);
      RunKeepsInv(es + init);
      StepOnlyAppends(Run(es + init), more[|more| - 1]);
    }
  }

  /** The tables of the running system, read off its own commits. */
  lemma ReachableTables(es: seq<Event>, b: BotId, c: Category, soul: SoulId)
    ensures Lookup(Run(es).db.benchmarks, c) == ExpectedBenchmark(Run(es).commits, c)
    ensures Lookup(Run(es).db.classes, (b, c)) == ExpectedRow(Run(es).commits, b, c)
    ensures Run(es).db.dna == ExpectedDna(Run(es).commits)
    ensures Run(es).db.negatives == ExpectedNegatives(Run(es).commits)
    ensures
      var versions := VersionsOf(Run(es).db.dna, c, soul);
      && |versions| == PairRuns(Run(es).commits, c, soul)
      && forall i :: 0 <= i < |versions| ==> versions[i] == i + 1
  {
    hide Replay, Step, Run, ExpectedRow, ExpectedBenchmark, ExpectedDna, ExpectedNegatives;
    Serialisable(es);
    DnaIsProjection(Run(es).commits);
    NegativesAreProjection(Run(es).commits);
    BenchmarkIsProjection(Run(es).commits, c);
    ClassRowIsProjection(Run(es).commits, b, c);
    VersionsAreContiguous(Run(es).commits, c, soul);
  }

  /**
   * A delivery that ends normally frees its category exactly when the job names
   * the category itself. A category taken from the soul row stays locked until
   * the key expires.
   */
  lemma ReleaseFreesIffJobNamesCategory(es: seq<Event>, w: nat)
    requires w < |Run(es).procs| && Run(es).procs[w].phase.Closing?
    ensures
      var s := Run(es);
      s.procs[w].phase.snap.category !in ReleaseStep(s, w).locks <==> s.procs[w].data.taskCategory.Some?
  {
    hide Replay, Step, Run;
    RunKeepsInv(es);
    assert SnapshotOf(Run(es).procs[w]);
  }

  /**
   * A failure between lock and commit is cleaned up: the tables are untouched and
   * the category is freed under the same condition.
   */
  lemma FailureFreesIffJobNamesCategory(es: seq<Event>, w: nat)
    requires w < |Run(es).procs| && (Run(es).procs[w].phase.Locked? || Run(es).procs[w].phase.InTx?)
    ensures
      var s, s' := Run(es), ReleaseStep(AbortStep(Run(es), w), w);
      && s'.db == s.db && s'.commits == s.commits && s'.procs[w].phase.Done?
      && (s.procs[w].phase.snap.category !in s'.locks <==> s.procs[w].data.taskCategory.Some?)
  {
    hide Replay, Step, Run;
    RunKeepsInv(es);
    assert SnapshotOf(Run(es).procs[w]);
  }

  lemma RunOne(es: seq<Event>, e: Event)
    ensures Run(es + [e]) == Step(Run(es), e)
  {
    hide Step;
    assert (es + [e])[..|es|] == es;
  }

  const NAMELESS_JOB := JobData("verdict", "execution", "bot", Some("soul"), None)

  /** The rows such a job may find: the soul row names the category. */
  function SoulNames(c: Category): Loaded {
    Loaded(Some(VerdictRow(Maintain, 1.0, false, None, false, None)), Some(BotRow(None)), Some(SoulRow(Some(c))))
  }

  predicate Alone(s: State, phase: Phase) {
    s.procs == [Proc("job", NAMELESS_JOB, phase)]
  }

  lemma DeliveredAlone()
    ensures
      var s := Step(Step(INITIAL, Enqueue("job", NAMELESS_JOB)), Deliver("job"));
      Alone(s, Delivered) && s.claimed == {} && s.locks == map[] && s.commits == []
  {
  }

  lemma LoadedAlone(s: State, c: Category, snap: Snapshot)
    requires Alone(s, Delivered) && s.claimed == {} && MakeSnapshot(NAMELESS_JOB, SoulNames(c)) == Some(snap)
    ensures
      var s' := Step(Step(s, Claim(0)), Load(0, SoulNames(c)));
      Alone(s', Waiting(snap, 0)) && s'.locks == s.locks && s'.commits == s.commits
  {
  }

  lemma CommittedAlone(s: State, snap: Snapshot)
    requires Alone(s, Waiting(snap, 0)) && s.locks == map[] && s.commits == []
    ensures
      var s' := Step(Step(Step(s, TryLock(0)), Read(0)), Commit(0));
      Alone(s', Closing(snap)) && snap.category in s'.locks && s'.commits == [snap]
  {
    hide WriteBack, ReadRows;
  }

  lemma ReleasedAlone(s: State, snap: Snapshot)
    requires Alone(s, Closing(snap))
    ensures
      var s' := Step(s, Release(0));
      Alone(s', Done) && s'.locks == s.locks && s'.commits == s.commits
  {
  }

  lemma SnapshotOfNameless(c: Category)
    ensures
      var made := MakeSnapshot(NAMELESS_JOB, SoulNames(c));
      made.Some? && made.value.category == c
  {
  }

  /**
   * That does happen: one job without a category of its own, delivered once,
   * commits and ends, and the category stays locked with nobody at work.
   */
  lemma LockStaysBehind(c: Category) returns (es: seq<Event>)
    ensures c in Run(es).locks && |Run(es).commits| == 1
    ensures forall w :: 0 <= w < |Run(es).procs| ==> Run(es).procs[w].phase.Done?
  {
    hide Step, MakeSnapshot;
    var e1 := [] + [Enqueue("job", NAMELESS_JOB)];
    var e2 := e1 + [Deliver("job")];
    var e3 := e2 + [Claim(0)];
    var e4 := e3 + [Load(0, SoulNames(c))];
    var e5 := e4 + [TryLock(0)];
    var e6 := e5 + [Read(0)];
    var e7 := e6 + [Commit(0)];
    es := e7 + [Release(0)];
    assert Run([]) == INITIAL;
    hide Run;
    RunOne([], Enqueue("job", NAMELESS_JOB));
    RunOne(e1, Deliver("job"));
    RunOne(e2, Claim(0));
    RunOne(e3, Load(0, SoulNames(c)));
    RunOne(e4, TryLock(0));
    RunOne(e5, Read(0));
    RunOne(e6, Commit(0));
    RunOne(e7, Release(0));
    SnapshotOfNameless(c);
    var snap := MakeSnapshot(NAMELESS_JOB, SoulNames(c)).value;
    DeliveredAlone();
    LoadedAlone(Run(e2), c, snap);
    CommittedAlone(Run(e4), snap);
    ReleasedAlone(Run(e7), snap);
  }

  // ----- Progress -------------------------------------------------------------

  /** The state with one more delivery, at a given phase. */
  function WithDelivery(s: State, j: JobId, d: JobData, phase: Phase): State {
    s.(procs := s.procs + [Proc(j, d, phase)])
  }

  lemma PhaseOfLast(s: State, j: JobId, d: JobData, phase: Phase, next: Phase)
    ensures SetPhase(WithDelivery(s, j, d, phase), |s.procs|, next) == WithDelivery(s, j, d, next)
  {
  }

  lemma ClaimsAndLoads(s: State, j: JobId, d: JobData, l: Loaded, snap: Snapshot)
    requires d.verdictId !in s.claimed && MakeSnapshot(d, l) == Some(snap)
    ensures
      var w, claimed := |s.procs|, s.(claimed := s.claimed + {d.verdictId});
      && Step(WithDelivery(s, j, d, Delivered), Claim(w)) == WithDelivery(claimed, j, d, Claimed)
      && Step(WithDelivery(claimed, j, d, Claimed), Load(w, l)) == WithDelivery(claimed, j, d, Waiting(snap, 0))
  {
    hide MakeSnapshot;
    PhaseOfLast(s, j, d, Delivered, Claimed);
    PhaseOfLast(s.(claimed := s.claimed + {d.verdictId}), j, d, Claimed, Waiting(snap, 0));
    hide SetPhase;
  }

  lemma Locks(s: State, j: JobId, d: JobData, snap: Snapshot)
    requires snap.category !in s.locks
    ensures Step(WithDelivery(s, j, d, Waiting(snap, 0)), TryLock(|s.procs|))
            == WithDelivery(s.(locks := s.locks[snap.category := j]), j, d, Locked(snap))
  {
    PhaseOfLast(s, j, d, Waiting(snap, 0), Locked(snap));
    hide SetPhase;
  }

  lemma ReadsAndCommits(s: State, j: JobId, d: JobData, snap: Snapshot)
    ensures
      var w, rows := |s.procs|, ReadRows(s.db, snap);
      && Step(WithDelivery(s, j, d, Locked(snap)), Read(w)) == WithDelivery(s, j, d, InTx(snap, rows))
      && Step(WithDelivery(s, j, d, InTx(snap, rows)), Commit(w))
         == WithDelivery(s.(db := Serial(s.db, snap), commits := s.commits + [snap]), j, d, Closing(snap))
  {
    hide ReadRows, WriteBack;
    PhaseOfLast(s, j, d, Locked(snap), InTx(snap, ReadRows(s.db, snap)));
    PhaseOfLast(s, j, d, InTx(snap, ReadRows(s.db, snap)), Closing(snap));
    hide SetPhase;
  }

  lemma Releases(s: State, j: JobId, d: JobData, snap: Snapshot)
    requires snap.category in s.locks && s.locks[snap.category] == j
    requires d.taskCategory == Some(snap.category)
    ensures Step(WithDelivery(s, j, d, Closing(snap)), Release(|s.procs|))
            == WithDelivery(s.(locks := s.locks - {snap.category}), j, d, Done)
  {
    PhaseOfLast(s, j, d, Closing(snap), Done);
    hide SetPhase;
  }

  /**
   * From every reachable state: a queued job that names its category, whose verdict nobody
   * claimed and whose category is free, can be delivered and committed. Its transaction is
   * applied once, the verdict is claimed, and the locks are what they were.
   */
  lemma DeliveryCommits(es: seq<Event>, j: JobId, l: Loaded, snap: Snapshot) returns (longer: seq<Event>)
    requires j in Run(es).queue && Run(es).queue[j].verdictId !in Run(es).claimed
    requires TakenFrom(snap, Run(es).queue[j], l) && Run(es).queue[j].taskCategory.Some?
    requires snap.category !in Run(es).locks
    ensures es <= longer
    ensures
      var s := Run(es);
      Run(longer) ==
      WithDelivery(
        s.(claimed := s.claimed + {snap.verdictId}, db := Serial(s.db, snap), commits := s.commits + [snap]),
        j, s.queue[j], Done)
  {
    var s, d := Run(es), Run(es).queue[j];
    var w := |s.procs|;
    SnapshotIsTaken(d, l, snap);
    ClaimsAndLoads(s, j, d, l, snap);
    var s1 := s.(claimed := s.claimed + {d.verdictId});
    Locks(s1, j, d, snap);
    var s2 := s1.(locks := s.locks[snap.category := j]);
    ReadsAndCommits(s2, j, d, snap);
    var s3 := s2.(db := Serial(s.db, snap), commits := s.commits + [snap]);
    Releases(s3, j, d, snap);
    assert s3.locks - {snap.category} == s.locks;
    assert Step(s, Deliver(j)) == WithDelivery(s, j, d, Delivered);
    hide Step, Run, WithDelivery, Serial, MakeSnapshot, ReadRows;
    var e1 := es + [Deliver(j)];
    var e2 := e1 + [Claim(w)];
    var e3 := e2 + [Load(w, l)];
    var e4 := e3 + [TryLock(w)];
    var e5 := e4 + [Read(w)];
    var e6 := e5 + [Commit(w)];
    longer := e6 + [Release(w)];
    RunOne(es, Deliver(j));
    RunOne(e1, Claim(w));
    RunOne(e2, Load(w, l));
    RunOne(e3, TryLock(w));
    RunOne(e4, Read(w));
    RunOne(e5, Commit(w));
    RunOne(e6, Release(w));
  }

  lemma OneAttempt(s: State, w: nat, snap: Snapshot, k: nat)
    requires w < |s.procs| && snap.category in s.locks && k < 20
    ensures Step(SetPhase(s, w, Waiting(snap, k)), TryLock(w))
            == SetPhase(s, w, if k < 19 then Waiting(snap, k + 1) else Done)
  {
    var tried := SetPhase(s, w, Waiting(snap, k));
    assert SetPhase(tried, w, Done) == SetPhase(s, w, Done);
    assert SetPhase(tried, w, Waiting(snap, k + 1)) == SetPhase(s, w, Waiting(snap, k + 1));
    hide SetPhase;
    assert tried.procs[w].phase == Waiting(snap, k) && tried.locks == s.locks && w < |tried.procs|;
  }

  /** An occupied category is tried exactly twenty times: then the delivery is over. */
  lemma {:induction false} TwentyAttempts(es: seq<Event>, w: nat, snap: Snapshot, k: nat) returns (longer: seq<Event>)
    requires w < |Run(es).procs| && Run(es).procs[w].phase == Waiting(snap, 0)
    requires snap.category in Run(es).locks && k <= 20
    ensures |longer| == |es| + k && es <= longer && forall i :: |es| <= i < |longer| ==> longer[i] == TryLock(w)
    ensures Run(longer) == SetPhase(Run(es), w, if k < 20 then Waiting(snap, k) else Done)
  {
    if k == 0 {
      longer := es;
    } else {
      OneAttempt(Run(es), w, snap, k - 1);
      hide Run, Step, SetPhase;
      var before := TwentyAttempts(es, w, snap, k - 1);
      longer := before + [TryLock(w)];
      RunOne(before, TryLock(w));
    }
  }

  // ----- Lost verdicts ----------------------------------------------------------

  predicate MayCommit(p: Proc) {
    p.phase.Claimed? || p.phase.Waiting? || p.phase.Locked? || p.phase.InTx?
  }

  /** A claimed verdict that is not committed and that no delivery works on. */
  predicate Lost(s: State, v: VerdictId) {
    && v in s.claimed && !Committed(s, v)
    && forall w :: 0 <= w < |s.procs| && s.procs[w].data.verdictId == v ==> !MayCommit(s.procs[w])
  }

  /** The delivery fails, crashes, or finds its category taken at the twentieth attempt. */
  predicate GivesUp(s: State, e: Event, w: nat)
    requires w < |s.procs|
  {
    || e == Abort(w) || e == Crash(w)
    || (e == TryLock(w) && s.procs[w].phase.Waiting? && s.procs[w].phase.attempts == 19
        && s.procs[w].phase.snap.category in s.locks)
  }

  /** Only the claim of a verdict that was not claimed makes a delivery able to commit. */
  lemma OnlyClaimsStart(s: State, e: Event, x: nat)
    requires x < |Step(s, e).procs| && MayCommit(Step(s, e).procs[x])
    ensures x < |s.procs| && s.procs[x].data == Step(s, e).procs[x].data
    ensures MayCommit(s.procs[x]) || s.procs[x].data.verdictId !in s.claimed
  {
    hide WriteBack, ReadRows, MakeSnapshot, Held;
  }

  lemma StaysClaimed(s: State, e: Event, v: VerdictId)
    requires v in s.claimed
    ensures v in Step(s, e).claimed
  {
    hide WriteBack, ReadRows, MakeSnapshot;
  }

  lemma LostStep(s: State, e: Event, v: VerdictId)
    requires Inv(s) && Lost(s, v)
    ensures Lost(Step(s, e), v)
  {
    hide Step, Replay;
    CommitFromDelivery(s, e);
    StaysClaimed(s, e, v);
    forall x | 0 <= x < |Step(s, e).procs| && Step(s, e).procs[x].data.verdictId == v
      ensures !MayCommit(Step(s, e).procs[x])
    {
      if MayCommit(Step(s, e).procs[x]) {
        OnlyClaimsStart(s, e, x);
        assert false;
      }
    }
    if e.Commit? && e.w < |s.procs| && s.procs[e.w].phase.InTx? {
      assert SnapshotOf(s.procs[e.w]);
      assert s.procs[e.w].phase.snap.verdictId != v;
    }
    forall i | 0 <= i < |Step(s, e).commits|
      ensures Step(s, e).commits[i].verdictId != v
    {
      if i < |s.commits| { assert s.commits[i] == Step(s, e).commits[i]; }
    }
  }

  lemma GivingUpLoses(s: State, e: Event, w: nat)
    requires Inv(s) && w < |s.procs| && MayCommit(s.procs[w]) && GivesUp(s, e, w)
    ensures Lost(Step(s, e), s.procs[w].data.verdictId)
  {
    hide Replay;
    SameCommits(s, Step(s, e));
  }

  /**
   * The claim comes first, so at-least-once delivery does not help a failed delivery: whatever
   * happens afterwards, its verdict is never committed.
   */
  lemma {:induction false} FailedVerdictIsLost(es: seq<Event>, e: Event, w: nat, more: seq<Event>)
    requires w < |Run(es).procs| && MayCommit(Run(es).procs[w]) && GivesUp(Run(es), e, w)
    ensures Lost(Run(es + [e] + more), Run(es).procs[w].data.verdictId)
  {
    if more == [] {
      assert es + [e] + more == es + [e];
      RunKeepsInv(es);
      RunOne(es, e);
      hide Run, Step;
      GivingUpLoses(Run(es), e, w);
    } else {
      var n := |more| - 1;
      assert es + [e] + more == (es + [e] + more[..n]) + [more[n]];
      FailedVerdictIsLost(es, e, w, more[..n]);
      RunKeepsInv(es + [e] + more[..n]);
      RunOne(es + [e] + more[..n], more[n]);
      hide Run, Step, Lost;
      LostStep(Run(es + [e] + more[..n]), more[n], Run(es).procs[w].data.verdictId);
    }
  }

  // ----- The workers, updating shared state in place ------------------------

  /** Whose delivery an event moves, if any. */
  predicate Moves(e: Event, w: nat) {
    match e
    case Enqueue(_, _) => false
    case Deliver(_) => false
    case Expire(_) => false
    case _ => e.w == w
  }

  class Workers {
    var queue: map<JobId, JobData>
    var procs: seq<Proc>
    var claimed: set<VerdictId>
    var locks: map<Category, JobId>
    const store: Store
    ghost var commits: seq<Snapshot>

    ghost function Abs(): State
      reads this, store
    {
      State(queue, procs, claimed, locks, store.Contents(), commits)
    }

    constructor ()
      ensures Abs() == INITIAL && fresh(store)
    {
      queue, procs, claimed, locks, commits := map[], [], {}, map[], [];
      store := new Store();
    }

    method SetPhase(w: nat, phase: Phase)
      requires w < |procs|
      modifies this`procs
      ensures procs == old(procs)[w := old(procs)[w].(phase := phase)]
    {
      procs := procs[w := procs[w].(phase := phase)];
    }

    /** Claims the verdict, or ends the delivery when somebody already did. */
    method Claim(w: nat)
      requires w < |procs|
      modifies this
      ensures Abs() == ClaimStep(old(Abs()), w)
    {
      if procs[w].phase.Delivered? {
        var v := procs[w].data.verdictId;
        if v in claimed {
          SetPhase(w, Done);
        } else {
          claimed := claimed + {v};
          SetPhase(w, Claimed);
        }
      }
    }

    method Load(w: nat, loaded: Loaded)
      requires w < |procs|
      modifies this
      ensures Abs() == LoadStep(old(Abs()), w, loaded)
    {
      if procs[w].phase.Claimed? {
        var snap := MakeSnapshot(procs[w].data, loaded);
        SetPhase(w, if snap.None? then Done else Waiting(snap.value, 0));
      }
    }

    /** SET NX: true when the key was free and now names this job. */
    method AcquireCategoryLock(category: Category, jobId: JobId) returns (acquired: bool)
      modifies this`locks
      ensures acquired == (category !in old(locks))
      ensures locks == if acquired then old(locks)[category := jobId] else old(locks)
    {
      acquired := category !in locks;
      if acquired {
        locks := locks[category := jobId];
      }
    }

    /** Deletes the key only while it still names this job. */
    method ReleaseCategoryLock(category: Category, jobId: JobId)
      modifies this`locks
      ensures
        locks == if category in old(locks) && old(locks)[category] == jobId
                 then old(locks) - {category} else old(locks)
    {
      if category in locks && locks[category] == jobId {
        locks := locks - {category};
      }
    }

    method TryLock(w: nat)
      requires w < |procs|
      modifies this
      ensures Abs() == TryLockStep(old(Abs()), w)
    {
      if procs[w].phase.Waiting? {
        var Waiting(snap, attempts) := procs[w].phase;
        var acquired := AcquireCategoryLock(snap.category, procs[w].jobId);
        if acquired {
          SetPhase(w, Locked(snap));
        } else if attempts + 1 < LOCK_MAX_RETRIES {
          SetPhase(w, Waiting(snap, attempts + 1));
        } else {
          SetPhase(w, Done);
        }
      }
    }

    method Renew(w: nat)
      requires w < |procs|
      modifies this
      ensures Abs() == RenewStep(old(Abs()), w)
    {
      if procs[w].Holds() && procs[w].phase.snap.category in locks {
        locks := locks[procs[w].phase.snap.category := procs[w].jobId];
      }
    }

    method BeginTransaction(w: nat)
      requires w < |procs|
      modifies this
      ensures Abs() == ReadStep(old(Abs()), w)
    {
      hide ComputeClassTransition;
      if procs[w].phase.Locked? {
        var snap := procs[w].phase.snap;
        var maxVersion: Option<nat> := None;
        if WritesDna(snap) {
          maxVersion := store.SelectMaxVersion(snap.category, snap.soulId.value);
        }
        SetPhase(w, InTx(snap, Reads(
          Lookup(store.benchmarks, snap.category),
          Lookup(store.classes, (snap.botId, snap.category)),
          maxVersion)));
      }
    }

    method CommitTransaction(w: nat)
      requires w < |procs|
      modifies this, store
      ensures Abs() == CommitStep(old(Abs()), w)
    {
      hide ComputeClassTransition, WriteBack;
      if procs[w].phase.InTx? {
        var InTx(snap, rows) := procs[w].phase;
        store.Write(snap, rows);
        commits := commits + [snap];
        SetPhase(w, Closing(snap));
      }
    }

    method Abort(w: nat)
      requires w < |procs|
      modifies this
      ensures Abs() == AbortStep(old(Abs()), w)
    {
      var phase := procs[w].phase;
      if phase.Locked? || phase.InTx? {
        SetPhase(w, Closing(phase.snap));
      } else if phase.Claimed? || phase.Waiting? {
        SetPhase(w, Done);
      }
    }

    method Release(w: nat)
      requires w < |procs|
      modifies this
      ensures Abs() == ReleaseStep(old(Abs()), w)
    {
      var p := procs[w];
      if p.phase.Closing? {
        if p.data.taskCategory.Some? {
          ReleaseCategoryLock(p.data.taskCategory.value, p.jobId);
        }
        SetPhase(w, Done);
      }
    }

    method Perform(e: Event)
      modifies this, store
      ensures Abs() == Step(old(Abs()), e)
    {
      hide ComputeClassTransition, WriteBack, ClaimStep, LoadStep, TryLockStep, RenewStep,
        ReadStep, CommitStep, AbortStep, ReleaseStep;
      match e
      case Enqueue(j, d) => if j !in queue { queue := queue[j := d]; }
      case Deliver(j) => if j in queue { procs := procs + [Proc(j, queue[j], Delivered)]; }
      case Expire(c) =>
        var held := exists w :: 0 <= w < |procs| && procs[w].Holds() && procs[w].phase.snap.category == c;
        if !held { locks := locks - {c}; }
      case Claim(w) => if w < |procs| { Claim(w); }
      case Load(w, loaded) => if w < |procs| { Load(w, loaded); }
      case TryLock(w) => if w < |procs| { TryLock(w); }
      case Renew(w) => if w < |procs| { Renew(w); }
      case Read(w) => if w < |procs| { BeginTransaction(w); }
      case Commit(w) => if w < |procs| { CommitTransaction(w); }
      case Abort(w) => if w < |procs| { Abort(w); }
      case Release(w) => if w < |procs| { Release(w); }
      case Crash(w) => if w < |procs| { SetPhase(w, Done); }
    }

    /** Other deliveries run between two awaits of delivery w. */
    method Interfere(others: seq<Event>, ghost w: nat)
      requires w < |procs| && Inv(Abs())
      requires forall e :: e in others ==> !Moves(e, w)
      modifies this, store
      ensures w < |procs| && procs[w] == old(procs)[w] && Inv(Abs())
    {
      hide Step, Inv;
      var i := 0;
      while i < |others|
        invariant 0 <= i <= |others|
        invariant w < |procs| && procs[w] == old(procs)[w] && Inv(Abs())
      {
        ghost var before := Abs();
        Perform(others[i]);
        StepKeepsInv(before, others[i]);
        OthersKeepProc(before, others[i], w);
        i := i + 1;
      }
    }

    /**
     * The retry loop around the lock: whatever the other deliveries do between
     * the attempts, it ends after at most LOCK_MAX_RETRIES of them, either
     * owning the category or giving the delivery up.
     */
    method AcquireWithRetries(w: nat, others: seq<seq<Event>>) returns (acquired: bool)
      requires w < |procs| && procs[w].phase.Waiting? && procs[w].phase.attempts == 0 && Inv(Abs())
      requires |others| == 20
      requires forall i, e :: 0 <= i < |others| && e in others[i] ==> !Moves(e, w)
      modifies this, store
      ensures Inv(Abs()) && w < |procs|
      ensures
        var snap := old(procs)[w].phase.snap;
        if acquired then
          && procs[w] == old(procs)[w].(phase := Locked(snap))
          && snap.category in locks && locks[snap.category] == procs[w].jobId
        else
          procs[w] == old(procs)[w].(phase := Done)
    {
      hide Step, Replay, ReadRows;
      ghost var snap := procs[w].phase.snap;
      acquired := false;
      var attempt := 0;
      while attempt < LOCK_MAX_RETRIES
        invariant 0 <= attempt <= LOCK_MAX_RETRIES
        invariant w < |procs| && Inv(Abs()) && !acquired
        invariant procs[w] == old(procs)[w].(phase :=
            if attempt < LOCK_MAX_RETRIES then Waiting(snap, attempt) else Done)
      {
        ghost var before := Abs();
        TryLock(w);
        TryLockKeepsInv(before, w);
        acquired := procs[w].phase.Locked?;
        if acquired {
          break;
        }
        Interfere(others[attempt], w);
        attempt := attempt + 1;
      }
    }
  }

  lemma OthersKeepProc(s: State, e: Event, w: nat)
    requires w < |s.procs| && !Moves(e, w)
    ensures w < |Step(s, e).procs| && Step(s, e).procs[w] == s.procs[w]
  {
    hide WriteBack, ReadRows;
  }
}
