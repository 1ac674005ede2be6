/**
 * The tables one God Layer transaction touches (category_benchmarks,
 * agent_classes, dna_store, negative_signal_register) and what the transaction
 * does to them, once as a value-level specification and once as methods that
 * update the tables in place.
 */
module GodLayerDb {
  import opened Prelude
  import opened ClassMachine

  type Category = string
  type BotId = string
  type SoulId = string
  type VerdictId = string
  type ExecutionId = string

  const MATURE_THRESHOLD := 3
  const THIN_DATA_CLEAR_THRESHOLD := 5
  const PROVISIONAL_CONFIDENCE := 0.50

  /** Everything a job loads before it takes the category lock; the transaction uses only this. */
  datatype Snapshot = Snapshot(
    verdictId: VerdictId,
    executionId: ExecutionId,
    botId: BotId,
    soulId: Option<SoulId>,
    category: Category,
    verdictType: VerdictType,
    confidence: real,
    confirmed: bool,
    soulDriven: bool,
    unresolvedDA: bool,
    score: real)

  datatype Benchmark = Benchmark(
    pioneerBot: BotId,
    pioneerSoul: Option<SoulId>,
    pioneerExecution: ExecutionId,
    baseline: real,
    confirmedRunCount: nat,
    thinData: bool,
    mature: bool,
    standardPromotion: bool)

  datatype PioneerResult = PioneerResult(isPioneer: bool, benchmarkMature: bool, baseline: real)

  /** graduated stands for a non-null artisan_graduation_at. */
  datatype ClassRow = ClassRow(
    state: ClassState,
    isPioneer: bool,
    lastVerdict: Option<VerdictId>,
    graduated: bool)

  datatype DnaEntry = DnaEntry(
    category: Category,
    soulId: SoulId,
    version: nat,
    botId: BotId,
    executionId: ExecutionId,
    score: real,
    provisional: bool,
    classAtWrite: AgentClass,
    pioneerEntry: bool)

  datatype NegativeSignal = NegativeSignal(
    soulId: SoulId, botId: BotId, executionId: ExecutionId, retirement: bool)

  datatype Db = Db(
    benchmarks: map<Category, Benchmark>,
    classes: map<(BotId, Category), ClassRow>,
    dna: seq<DnaEntry>,
    negatives: seq<NegativeSignal>)

  const EMPTY_DB := Db(map[], map[], [], [])

  /** The rows a transaction reads before it writes. */
  datatype Reads = Reads(
    benchmark: Option<Benchmark>,
    classRow: Option<ClassRow>,
    maxVersion: Option<nat>)

  // ----- Specification -----------------------------------------------------

  function MaxVersion(dna: seq<DnaEntry>, c: Category, soul: SoulId): Option<nat> {
    if dna == [] then None
    else
      var before := MaxVersion(dna[..|dna| - 1], c, soul);
      var e := dna[|dna| - 1];
      if e.category != c || e.soulId != soul then before
      else if before.Some? && before.value > e.version then before
      else Some(e.version)
  }

  function TrackPioneer(existing: Option<Benchmark>, s: Snapshot): (Benchmark, PioneerResult) {
    match existing
    case None =>
      (Benchmark(s.botId, s.soulId, s.executionId, s.score, 1, true, false, false),
       PioneerResult(true, false, s.score))
    case Some(row) =>
      var runs := row.confirmedRunCount + 1;
      (row.(confirmedRunCount := runs,
            mature := runs >= MATURE_THRESHOLD,
            standardPromotion := runs >= MATURE_THRESHOLD,
            thinData := runs < THIN_DATA_CLEAR_THRESHOLD),
       PioneerResult(false, runs >= MATURE_THRESHOLD, row.baseline))
  }

  function InputFor(s: Snapshot, p: PioneerResult): VerdictInput {
    VerdictInput(
      s.verdictType, s.confidence, s.confirmed, s.score > p.baseline,
      s.soulDriven, s.unresolvedDA, p.benchmarkMature)
  }

  function NextClassRow(existing: Option<ClassRow>, s: Snapshot, p: PioneerResult): (ClassRow, ClassTransition) {
    var row := existing.GetOr(ClassRow(FRESH, p.isPioneer, None, false));
    var r := ComputeClassTransition(row.state, InputFor(s, p));
    (ClassRow(r.newState, p.isPioneer || row.isPioneer, Some(s.verdictId),
              row.graduated || r.transition == GRADUATION),
     r.transition)
  }

  /** An empty soul id is as good as none. */
  predicate HasSoul(soulId: Option<SoulId>) {
    soulId.GetOr("") != ""
  }

  /** A DNA entry needs a soul and a category name that is not empty. */
  predicate WritesDna(s: Snapshot) {
    HasSoul(s.soulId) && s.category != ""
  }

  function ReadRows(db: Db, s: Snapshot): Reads {
    Reads(
      Lookup(db.benchmarks, s.category),
      Lookup(db.classes, (s.botId, s.category)),
      if WritesDna(s) then MaxVersion(db.dna, s.category, s.soulId.value) else None)
  }

  function NewDna(maxVersion: Option<nat>, s: Snapshot, cls: AgentClass, pioneer: bool): seq<DnaEntry> {
    if !WritesDna(s) then []
    else
      var version := if maxVersion.Some? then maxVersion.value + 1 else 1;
      [DnaEntry(s.category, s.soulId.value, version, s.botId, s.executionId, s.score,
                s.confidence < PROVISIONAL_CONFIDENCE, cls, pioneer)]
  }

  function NewNegatives(s: Snapshot, t: ClassTransition): seq<NegativeSignal> {
    if HasSoul(s.soulId) && (t.Retirement? || (t.Demotion? && s.soulDriven)) then
      [NegativeSignal(s.soulId.value, s.botId, s.executionId, t.Retirement?)]
    else []
  }

  /** The writes of a transaction that read r, applied to whatever the tables hold by then. */
  function WriteBack(db: Db, s: Snapshot, r: Reads): Db {
    var (benchmark, pioneer) := TrackPioneer(r.benchmark, s);
    var (row, transition) := NextClassRow(r.classRow, s, pioneer);
    Db(db.benchmarks[s.category := benchmark],
       db.classes[(s.botId, s.category) := row],
       db.dna + NewDna(r.maxVersion, s, row.state.currentClass, pioneer.isPioneer),
       db.negatives + NewNegatives(s, transition))
  }

  /** One transaction executed alone. */
  function Serial(db: Db, s: Snapshot): Db {
    WriteBack(db, s, ReadRows(db, s))
  }

  /** The tables after a list of transactions executed one after the other. */
  function Replay(commits: seq<Snapshot>): Db {
    if commits == [] then EMPTY_DB
    else Serial(Replay(commits[..|commits| - 1]), commits[|commits| - 1])
  }

  lemma {:induction false} MaxVersionOfAppend(dna: seq<DnaEntry>, more: seq<DnaEntry>, c: Category, soul: SoulId)
    requires forall e :: e in more ==> e.category != c || e.soulId != soul
    ensures MaxVersion(dna + more, c, soul) == MaxVersion(dna, c, soul)
  {
    if more == [] {
      assert dna + more == dna;
    } else {
      var init := more[..|more| - 1];
      assert (dna + more)[..|dna + more| - 1] == dna + init;
      MaxVersionOfAppend(dna, init, c, soul);
    }
  }

  /** A transaction in one category does not disturb the rows read in another. */
  lemma WriteBackFrame(db: Db, s: Snapshot, r: Reads, other: Snapshot)
    requires s.category != other.category
    ensures ReadRows(WriteBack(db, s, r), other) == ReadRows(db, other)
  {
    hide ComputeClassTransition;
    var (benchmark, pioneer) := TrackPioneer(r.benchmark, s);
    var (row, transition) := NextClassRow(r.classRow, s, pioneer);
    if WritesDna(other) {
      MaxVersionOfAppend(
        db.dna, NewDna(r.maxVersion, s, row.state.currentClass, pioneer.isPioneer),
        other.category, other.soulId.value);
    }
  }

  /**
   * Why the lock is needed: when two transactions of one category both read
   * before either writes, the tables match no serial order of the two, because
   * one confirmed run is lost from the benchmark.
   */
  lemma OverlapIsNotSerial(db: Db, s: Snapshot, t: Snapshot)
    requires s.category == t.category
    ensures
      var overlapped := WriteBack(WriteBack(db, s, ReadRows(db, s)), t, ReadRows(db, t));
      && overlapped != Serial(Serial(db, s), t)
      && overlapped != Serial(Serial(db, t), s)
  {
    hide ComputeClassTransition;
    var c := s.category;
    var runs := if c in db.benchmarks then db.benchmarks[c].confirmedRunCount else 0;
    assert WriteBack(WriteBack(db, s, ReadRows(db, s)), t, ReadRows(db, t)).benchmarks[c].confirmedRunCount == runs + 1;
    assert Serial(db, s).benchmarks[c].confirmedRunCount == runs + 1;
    assert Serial(Serial(db, s), t).benchmarks[c].confirmedRunCount == runs + 2;
    assert Serial(db, t).benchmarks[c].confirmedRunCount == runs + 1;
    assert Serial(Serial(db, t), s).benchmarks[c].confirmedRunCount == runs + 2;
  }

  // ----- The tables, updated in place -------------------------------------

  class Store {
    var benchmarks: map<Category, Benchmark>
    var classes: map<(BotId, Category), ClassRow>
    var dna: seq<DnaEntry>
    var negatives: seq<NegativeSignal>

    function Contents(): Db
      reads this
    {
      Db(benchmarks, classes, dna, negatives)
    }

    constructor ()
      ensures Contents() == EMPTY_DB
    {
      benchmarks, classes, dna, negatives := map[], map[], [], [];
    }

    /** Inserts the benchmark when none was read, counts one more run on the row that was read otherwise. */
    method WriteBenchmark(s: Snapshot, existing: Option<Benchmark>) returns (result: PioneerResult)
      modifies this`benchmarks
      ensures
        var (benchmark, expected) := TrackPioneer(existing, s);
        benchmarks == old(benchmarks)[s.category := benchmark] && result == expected
    {
      match existing
      case None =>
        benchmarks := benchmarks[s.category :=
            Benchmark(s.botId, s.soulId, s.executionId, s.score, 1, true, false, false)];
        result := PioneerResult(true, false, s.score);
      case Some(row) =>
        var runs := row.confirmedRunCount + 1;
        var mature := runs >= MATURE_THRESHOLD;
        benchmarks := benchmarks[s.category :=
            row.(confirmedRunCount := runs, mature := mature, standardPromotion := mature,
                 thinData := runs < THIN_DATA_CLEAR_THRESHOLD)];
        result := PioneerResult(false, mature, row.baseline);
    }

    method DetectAndTrackPioneer(s: Snapshot) returns (result: PioneerResult)
      modifies this`benchmarks
      ensures
        var (benchmark, expected) := TrackPioneer(Lookup(old(benchmarks), s.category), s);
        benchmarks == old(benchmarks)[s.category := benchmark] && result == expected
    {
      result := WriteBenchmark(s, Lookup(benchmarks, s.category));
    }

    /** SELECT MAX(version) over the entries of one (category, soul) pair. */
    method SelectMaxVersion(c: Category, soul: SoulId) returns (max: Option<nat>)
      ensures max == MaxVersion(dna, c, soul)
    {
      max := None;
      var i := 0;
      while i < |dna|
        invariant 0 <= i <= |dna|
        invariant max == MaxVersion(dna[..i], c, soul)
      {
        assert dna[..i + 1][..i] == dna[..i];
        var e := dna[i];
        if e.category == c && e.soulId == soul && (max.None? || max.value <= e.version) {
          max := Some(e.version);
        }
        i := i + 1;
      }
      assert dna[..i] == dna;
    }

    /** Insert-only: the new row is appended and no existing row changes. */
    method InsertDnaEntry(s: Snapshot, soul: SoulId, currentMax: Option<nat>, cls: AgentClass, pioneer: bool)
      returns (version: nat, provisional: bool)
      requires WritesDna(s) && s.soulId.value == soul
      modifies this`dna
      ensures dna == old(dna) + NewDna(currentMax, s, cls, pioneer)
      ensures |dna| == |old(dna)| + 1
      ensures dna[|old(dna)|].version == version && dna[|old(dna)|].provisional == provisional
    {
      version := if currentMax.Some? then currentMax.value + 1 else 1;
      provisional := s.confidence < PROVISIONAL_CONFIDENCE;
      dna := dna + [DnaEntry(s.category, soul, version, s.botId, s.executionId, s.score,
                             provisional, cls, pioneer)];
    }

    method WriteVersionedDnaEntry(s: Snapshot, soul: SoulId, cls: AgentClass, pioneer: bool)
      returns (version: nat, provisional: bool)
      requires WritesDna(s) && s.soulId.value == soul
      modifies this`dna
      ensures dna == old(dna) + NewDna(MaxVersion(old(dna), s.category, soul), s, cls, pioneer)
      ensures |dna| == |old(dna)| + 1
      ensures dna[|old(dna)|].version == version && dna[|old(dna)|].provisional == provisional
    {
      var currentMax := SelectMaxVersion(s.category, soul);
      version, provisional := InsertDnaEntry(s, soul, currentMax, cls, pioneer);
    }

    /** Creates the class row when none was read, moves it, and writes it back. */
    method WriteClassRow(s: Snapshot, existing: Option<ClassRow>, pioneer: PioneerResult)
      returns (cls: AgentClass, transition: ClassTransition)
      modifies this`classes
      ensures
        var (row, expected) := NextClassRow(existing, s, pioneer);
        && classes == old(classes)[(s.botId, s.category) := row]
        && cls == row.state.currentClass
        && transition == expected
    {
      hide ComputeClassTransition;
      var key := (s.botId, s.category);
      var row;
      if existing.None? {
        row := ClassRow(FRESH, pioneer.isPioneer, None, false);
        classes := classes[key := row];
      } else {
        row := existing.value;
      }
      var result := ComputeClassTransition(row.state, InputFor(s, pioneer));
      cls, transition := result.newState.currentClass, result.transition;
      classes := classes[key :=
          ClassRow(result.newState, pioneer.isPioneer || row.isPioneer, Some(s.verdictId),
                   row.graduated || transition == GRADUATION)];
    }

    method UpdateAgentClass(s: Snapshot, pioneer: PioneerResult) returns (cls: AgentClass, transition: ClassTransition)
      modifies this`classes
      ensures
        var (row, expected) := NextClassRow(Lookup(old(classes), (s.botId, s.category)), s, pioneer);
        && classes == old(classes)[(s.botId, s.category) := row]
        && cls == row.state.currentClass
        && transition == expected
    {
      cls, transition := WriteClassRow(s, Lookup(classes, (s.botId, s.category)), pioneer);
    }

    method WriteNegativeSignal(s: Snapshot, transition: ClassTransition)
      modifies this`negatives
      ensures negatives == old(negatives) + NewNegatives(s, transition)
    {
      if HasSoul(s.soulId) && (transition.Retirement? || (transition.Demotion? && s.soulDriven)) {
        negatives := negatives + [NegativeSignal(s.soulId.value, s.botId, s.executionId, transition.Retirement?)];
      }
    }

    /**
     * The write statements of a transaction whose reads happened earlier. If the
     * rows read are still current it is as good as the transaction run alone;
     * whatever was read, no row that another category reads changes.
     */
    method Write(s: Snapshot, r: Reads)
      modifies this
      ensures Contents() == WriteBack(old(Contents()), s, r)
      ensures r == ReadRows(old(Contents()), s) ==> Contents() == Serial(old(Contents()), s)
      ensures forall other: Snapshot :: other.category != s.category ==>
                ReadRows(Contents(), other) == ReadRows(old(Contents()), other)
      ensures old(dna) <= dna && old(negatives) <= negatives
    {
      ghost var before := Contents();
      hide ComputeClassTransition, MaxVersion, TrackPioneer, NextClassRow;
      var pioneer := WriteBenchmark(s, r.benchmark);
      var cls, transition := WriteClassRow(s, r.classRow, pioneer);
      if WritesDna(s) {
        var version, provisional := InsertDnaEntry(s, s.soulId.value, r.maxVersion, cls, pioneer.isPioneer);
      }
      WriteNegativeSignal(s, transition);
      assert Contents() == WriteBack(before, s, r);
      hide WriteBack, ReadRows;
      forall other: Snapshot | other.category != s.category {
        WriteBackFrame(before, s, r, other);
      }
    }

    /**
     * The transaction body in the order of its statements, where each table is
     * read just before it is written. Run without interference it does what
     * reading all rows first and writing them afterwards does.
     */
    method RunTransaction(s: Snapshot) returns (transition: ClassTransition)
      modifies this
      ensures Contents() == Serial(old(Contents()), s) == WriteBack(old(Contents()), s, ReadRows(old(Contents()), s))
      ensures
        var pioneer := TrackPioneer(Lookup(old(benchmarks), s.category), s).1;
        transition == NextClassRow(Lookup(old(classes), (s.botId, s.category)), s, pioneer).1
    {
      hide ComputeClassTransition, NextClassRow, MaxVersion;
      var cls;
      var pioneer := DetectAndTrackPioneer(s);
      cls, transition := UpdateAgentClass(s, pioneer);
      if WritesDna(s) {
        var version, provisional := WriteVersionedDnaEntry(s, s.soulId.value, cls, pioneer.isPioneer);
      }
      WriteNegativeSignal(s, transition);
    }
  }
}
