/**
 * What the tables hold after any list of committed verdicts, read off the list
 * itself: each benchmark depends only on the commits of its category, each
 * class row is the class machine run on the verdicts of its bot and category,
 * and each DNA pair is numbered 1, 2, 3, ... The laws about pioneers follow.
 */
module GodLayerHistory {
  import opened Prelude
  import opened ClassMachine
  import opened GodLayerDb

  function Init<T>(s: seq<T>): seq<T>
    requires s != []
  {
    s[..|s| - 1]
  }

  function Last<T>(s: seq<T>): T
    requires s != []
  {
    s[|s| - 1]
  }

  // ----- Reading a commit list --------------------------------------------

  function RunsIn(commits: seq<Snapshot>, c: Category): nat {
    if commits == [] then 0
    else RunsIn(Init(commits), c) + (if Last(commits).category == c then 1 else 0)
  }

  function FirstIn(commits: seq<Snapshot>, c: Category): Option<Snapshot> {
    if commits == [] then None
    else
      var before := FirstIn(Init(commits), c);
      if before.Some? || Last(commits).category != c then before else Some(Last(commits))
  }

  predicate Concerns(s: Snapshot, b: BotId, c: Category) {
    s.botId == b && s.category == c
  }

  /** The verdict as the class machine sees it: compared with the first score of the category. */
  function InputOfLast(commits: seq<Snapshot>): VerdictInput
    requires commits != []
  {
    var s := Last(commits);
    var first := FirstIn(commits, s.category).GetOr(s);
    VerdictInput(
      s.verdictType, s.confidence, s.confirmed, s.score > first.score,
      s.soulDriven, s.unresolvedDA, RunsIn(commits, s.category) >= 3)
  }

  function InputsOf(commits: seq<Snapshot>, b: BotId, c: Category): seq<VerdictInput> {
    if commits == [] then []
    else
      InputsOf(Init(commits), b, c)
      + (if Concerns(Last(commits), b, c) then [InputOfLast(commits)] else [])
  }

  function ScoresOf(commits: seq<Snapshot>, b: BotId, c: Category): seq<real> {
    if commits == [] then []
    else
      ScoresOf(Init(commits), b, c)
      + (if Concerns(Last(commits), b, c) then [Last(commits).score] else [])
  }

  function LastVerdictOf(commits: seq<Snapshot>, b: BotId, c: Category): Option<VerdictId> {
    if commits == [] then None
    else if Concerns(Last(commits), b, c) then Some(Last(commits).verdictId)
    else LastVerdictOf(Init(commits), b, c)
  }

  function PairRuns(commits: seq<Snapshot>, c: Category, soul: SoulId): nat {
    if commits == [] then 0
    else
      PairRuns(Init(commits), c, soul)
      + (if WritesDna(Last(commits)) && Last(commits).category == c && Last(commits).soulId == Some(soul) then 1
         else 0)
  }

  // ----- What the tables must hold ----------------------------------------

  function ExpectedBenchmark(commits: seq<Snapshot>, c: Category): Option<Benchmark> {
    match FirstIn(commits, c)
    case None => None
    case Some(first) =>
      var runs := RunsIn(commits, c);
      Some(Benchmark(first.botId, first.soulId, first.executionId, first.score, runs,
                     runs < 5,
                     runs >= 3,
                     runs >= 3))
  }

  predicate HasGraduated(h: seq<VerdictInput>) {
    exists k :: 0 <= k < |h| && TransitionAt(h, k) == GRADUATION
  }

  function ExpectedRow(commits: seq<Snapshot>, b: BotId, c: Category): Option<ClassRow> {
    var inputs := InputsOf(commits, b, c);
    if inputs == [] then None
    else
      Some(ClassRow(
             StateAfter(inputs),
             FirstIn(commits, c).Some? && FirstIn(commits, c).value.botId == b,
             LastVerdictOf(commits, b, c),
             HasGraduated(inputs)))
  }

  function ExpectedDna(commits: seq<Snapshot>): seq<DnaEntry> {
    if commits == [] then []
    else
      var s := Last(commits);
      ExpectedDna(Init(commits))
      + (if s.soulId.GetOr("") == "" || s.category == "" then []
         else
           var soul := s.soulId.value;
           [DnaEntry(s.category, soul, PairRuns(commits, s.category, soul), s.botId, s.executionId, s.score,
                     s.confidence < 0.50,
                     StateAfter(InputsOf(commits, s.botId, s.category)).currentClass,
                     RunsIn(commits, s.category) == 1)])
  }

  // ----- The tables hold exactly that --------------------------------------

  lemma {:induction false} FirstIffRun(commits: seq<Snapshot>, c: Category)
    ensures FirstIn(commits, c).Some? <==> RunsIn(commits, c) > 0
  {
    if commits != [] {
      FirstIffRun(Init(commits), c);
    }
  }

  /** The first committed score is the baseline for good; the count and the flags follow the runs. */
  lemma {:induction false} BenchmarkIsProjection(commits: seq<Snapshot>, c: Category)
    ensures Lookup(Replay(commits).benchmarks, c) == ExpectedBenchmark(commits, c)
  {
    hide ComputeClassTransition, MaxVersion;
    FirstIffRun(commits, c);
    if commits != [] {
      FirstIffRun(Init(commits), c);
      BenchmarkIsProjection(Init(commits), c);
    }
  }

  /** What the transaction of the last commit feeds to the class machine. */
  lemma PioneerSeenByLast(commits: seq<Snapshot>)
    requires commits != []
    ensures
      var s := Last(commits);
      var p := TrackPioneer(Lookup(Replay(Init(commits)).benchmarks, s.category), s).1;
      && InputFor(s, p) == InputOfLast(commits)
      && p.isPioneer == (RunsIn(commits, s.category) == 1)
      && p.isPioneer == FirstIn(Init(commits), s.category).None?
  {
    var s := Last(commits);
    BenchmarkIsProjection(Init(commits), s.category);
    FirstIffRun(Init(commits), s.category);
  }

  lemma TransitionOfPrefix(h: seq<VerdictInput>, v: VerdictInput, k: nat)
    requires k < |h|
    ensures TransitionAt(h + [v], k) == TransitionAt(h, k)
  {
    assert (h + [v])[..k] == h[..k];
  }

  lemma GraduatedOfAppend(h: seq<VerdictInput>, v: VerdictInput)
    ensures HasGraduated(h + [v]) <==> HasGraduated(h) || TransitionAt(h + [v], |h|) == GRADUATION
  {
    hide TransitionAt;
    forall k | 0 <= k < |h|
      ensures TransitionAt(h + [v], k) == TransitionAt(h, k)
    {
      TransitionOfPrefix(h, v, k);
    }
  }

  lemma AppendInput(h: seq<VerdictInput>, v: VerdictInput)
    ensures StateAfter(h + [v]) == ComputeClassTransition(StateAfter(h), v).newState
    ensures TransitionAt(h + [v], |h|) == ComputeClassTransition(StateAfter(h), v).transition
    ensures HasGraduated(h + [v]) <==>
            HasGraduated(h) || ComputeClassTransition(StateAfter(h), v).transition == GRADUATION
  {
    hide ComputeClassTransition, StateAfter;
    var g := h + [v];
    assert g[..|h|] == h;
    StateAfterStep(g, |h|);
    assert g[..|g|] == g;
    assert TransitionAt(g, |h|) == ComputeClassTransition(StateAfter(h), v).transition;
    hide TransitionAt;
    GraduatedOfAppend(h, v);
  }

  lemma FreshStart()
    ensures StateAfter([]) == FRESH && !HasGraduated([])
  {
  }

  /** Each class row is the class machine run on the verdicts of its own bot and category. */
  lemma {:induction false} ClassRowIsProjection(commits: seq<Snapshot>, b: BotId, c: Category)
    ensures Lookup(Replay(commits).classes, (b, c)) == ExpectedRow(commits, b, c)
    ensures InputsOf(commits, b, c) != [] ==> FirstIn(commits, c).Some?
  {
    hide ComputeClassTransition, MaxVersion, StateAfter, TrackPioneer;
    if commits != [] {
      ClassRowIsProjection(Init(commits), b, c);
      if Concerns(Last(commits), b, c) {
        var before := InputsOf(Init(commits), b, c);
        PioneerSeenByLast(commits);
        AppendInput(before, InputOfLast(commits));
        FreshStart();
        if FirstIn(Init(commits), c).Some? {
          PioneerRanFirst(Init(commits), c);
          InputsFollowScores(Init(commits), b, c);
        }
      } else {
        assert InputsOf(commits, b, c) == InputsOf(Init(commits), b, c);
      }
    }
  }

  function VersionsOf(dna: seq<DnaEntry>, c: Category, soul: SoulId): seq<nat> {
    if dna == [] then []
    else
      VersionsOf(Init(dna), c, soul)
      + (if Last(dna).category == c && Last(dna).soulId == soul then [Last(dna).version] else [])
  }

  lemma ExpectedDnaStep(commits: seq<Snapshot>)
    requires commits != []
    ensures
      var dna := ExpectedDna(commits);
      if !WritesDna(Last(commits)) then dna == ExpectedDna(Init(commits))
      else
        var soul := Last(commits).soulId.value;
        && dna != [] && Init(dna) == ExpectedDna(Init(commits))
        && Last(dna).soulId == soul && Last(dna).category == Last(commits).category
        && Last(dna).version == PairRuns(commits, Last(commits).category, soul)
  {
    hide StateAfter;
  }

  lemma {:induction false} MaxOfExpectedDna(commits: seq<Snapshot>, c: Category, soul: SoulId)
    ensures
      MaxVersion(ExpectedDna(commits), c, soul)
      == (var n := PairRuns(commits, c, soul); if n == 0 then None else Some(n))
  {
    hide ExpectedDna;
    if commits == [] {
      EmptyDna();
    } else {
      MaxOfExpectedDna(Init(commits), c, soul);
      ExpectedDnaStep(commits);
    }
  }

  /** The DNA log is the list of commits that write DNA, in commit order. */
  lemma {:induction false} DnaIsProjection(commits: seq<Snapshot>)
    ensures Replay(commits).dna == ExpectedDna(commits)
  {
    hide ComputeClassTransition, MaxVersion, StateAfter, TrackPioneer;
    if commits != [] {
      var s := Last(commits);
      DnaIsProjection(Init(commits));
      PioneerSeenByLast(commits);
      ClassRowIsProjection(commits, s.botId, s.category);
      if WritesDna(s) {
        MaxOfExpectedDna(Init(commits), s.category, s.soulId.value);
      }
    }
  }

  lemma EmptyDna()
    ensures ExpectedDna([]) == []
  {
  }

  lemma {:induction false} VersionsOfExpectedDna(commits: seq<Snapshot>, c: Category, soul: SoulId)
    ensures
      var versions := VersionsOf(ExpectedDna(commits), c, soul);
      && |versions| == PairRuns(commits, c, soul)
      && forall i :: 0 <= i < |versions| ==> versions[i] == i + 1
  {
    hide ExpectedDna;
    if commits == [] {
      EmptyDna();
    } else {
      VersionsOfExpectedDna(Init(commits), c, soul);
      ExpectedDnaStep(commits);
    }
  }

  /** The versions of a (category, soul) pair are exactly 1..n, n being its commits that write DNA. */
  lemma {:induction false} VersionsAreContiguous(commits: seq<Snapshot>, c: Category, soul: SoulId)
    ensures
      var versions := VersionsOf(Replay(commits).dna, c, soul);
      && |versions| == PairRuns(commits, c, soul)
      && forall i :: 0 <= i < |versions| ==> versions[i] == i + 1
  {
    DnaIsProjection(commits);
    VersionsOfExpectedDna(commits, c, soul);
  }

  // ----- Transitions ---------------------------------------------------------

  /** The transition the k-th commit made, as the transaction computed it. */
  function TransitionOf(commits: seq<Snapshot>, k: nat): ClassTransition
    requires k < |commits|
  {
    var s := commits[k];
    var db := Replay(commits[..k]);
    NextClassRow(
      Lookup(db.classes, (s.botId, s.category)), s,
      TrackPioneer(Lookup(db.benchmarks, s.category), s).1).1
  }

  /** It is the transition the class machine makes on the verdicts of that bot and category. */
  lemma TransitionIsProjection(commits: seq<Snapshot>, k: nat)
    requires k < |commits|
    ensures
      var s := commits[k];
      var inputs := InputsOf(commits[..k + 1], s.botId, s.category);
      && inputs != []
      && TransitionOf(commits, k) == TransitionAt(inputs, |inputs| - 1)
      && inputs[|inputs| - 1] == InputOfLast(commits[..k + 1])
  {
    hide Replay, StateAfter, ComputeClassTransition;
    var s := commits[k];
    var now := commits[..k + 1];
    assert Init(now) == commits[..k];
    PioneerSeenByLast(now);
    ClassRowIsProjection(commits[..k], s.botId, s.category);
    AppendInput(InputsOf(commits[..k], s.botId, s.category), InputOfLast(now));
    FreshStart();
  }

  lemma {:induction false} InputsGrow(commits: seq<Snapshot>, i: nat, b: BotId, c: Category)
    requires i <= |commits|
    ensures InputsOf(commits[..i], b, c) <= InputsOf(commits, b, c)
  {
    if i == |commits| {
      assert commits[..i] == commits;
    } else {
      InputsGrow(Init(commits), i, b, c);
      assert Init(commits)[..i] == commits[..i];
    }
  }

  /**
   * The careers of the class machine, seen in the tables: a retirement is the
   * last transition of a bot in a category, and after a graduation or a demotion
   * it never graduates there again.
   */
  lemma NoSecondCareer(commits: seq<Snapshot>, i: nat, j: nat)
    requires i < j < |commits|
    requires commits[i].botId == commits[j].botId && commits[i].category == commits[j].category
    ensures TransitionOf(commits, i).Retirement? ==> TransitionOf(commits, j) == NoTransition
    ensures TransitionOf(commits, i) == GRADUATION || TransitionOf(commits, i).Demotion? ==>
              TransitionOf(commits, j) != GRADUATION
  {
    hide StateAfter, ComputeClassTransition, Replay, TransitionOf;
    var b, c := commits[i].botId, commits[i].category;
    var g, h := InputsOf(commits[..i + 1], b, c), InputsOf(commits[..j + 1], b, c);
    TransitionIsProjection(commits, i);
    TransitionIsProjection(commits, j);
    assert commits[..j][..i + 1] == commits[..i + 1];
    InputsGrow(commits[..j], i + 1, b, c);
    assert Init(commits[..j + 1]) == commits[..j];
    assert g <= h && |g| < |h|;
    assert g[..|g| - 1] == h[..|g| - 1] && g == h[..|g|];
    assert TransitionAt(g, |g| - 1) == TransitionAt(h, |g| - 1);
    if TransitionOf(commits, i).Retirement? {
      RetirementRetires(h, |g| - 1);
      RetiredIsAbsorbing(h, |g|, |h| - 1);
    }
    if TransitionOf(commits, i) == GRADUATION || TransitionOf(commits, i).Demotion? {
      ArtisanAtMostOnce(h, |g| - 1, |h| - 1);
    }
  }

  lemma RetirementRetires(h: seq<VerdictInput>, i: nat)
    requires i < |h| && TransitionAt(h, i).Retirement?
    ensures StateAfter(h[..i + 1]).currentClass == Retired
  {
    StateAfterStep(h, i);
  }

  /** One signal for every demotion or retirement of a bot with a soul, and no other. */
  function ExpectedNegatives(commits: seq<Snapshot>): seq<NegativeSignal> {
    if commits == [] then []
    else
      var s, t := Last(commits), TransitionOf(commits, |commits| - 1);
      ExpectedNegatives(Init(commits))
      + (if s.soulId.GetOr("") != "" && (t.Retirement? || t.Demotion?)
         then [NegativeSignal(s.soulId.value, s.botId, s.executionId, t.Retirement?)] else [])
  }

  /**
   * The register of negative signals. The transaction asks for a soul-driven
   * verdict before it records a demotion; that test never fails.
   */
  lemma {:induction false} NegativesAreProjection(commits: seq<Snapshot>)
    ensures Replay(commits).negatives == ExpectedNegatives(commits)
  {
    hide ComputeClassTransition, MaxVersion, TrackPioneer;
    if commits != [] {
      var s, before := Last(commits), Replay(Init(commits));
      NegativesAreProjection(Init(commits));
      var p := TrackPioneer(Lookup(before.benchmarks, s.category), s).1;
      var row := Lookup(before.classes, (s.botId, s.category)).GetOr(ClassRow(FRESH, p.isPioneer, None, false));
      SetbacksAreSoulDriven(row.state, InputFor(s, p));
    }
  }

  // ----- Laws about pioneers -----------------------------------------------

  lemma {:induction false} InputsFollowScores(commits: seq<Snapshot>, b: BotId, c: Category)
    ensures |InputsOf(commits, b, c)| == |ScoresOf(commits, b, c)|
    ensures InputsOf(commits, b, c) != [] ==> FirstIn(commits, c).Some?
    ensures forall i :: 0 <= i < |InputsOf(commits, b, c)| ==>
              InputsOf(commits, b, c)[i].isAboveBenchmark
              == (ScoresOf(commits, b, c)[i] > FirstIn(commits, c).value.score)
  {
    if commits != [] {
      InputsFollowScores(Init(commits), b, c);
    }
  }

  /** The first score of the category is the first score of the bot that ran first. */
  lemma {:induction false} PioneerRanFirst(commits: seq<Snapshot>, c: Category)
    requires FirstIn(commits, c).Some?
    ensures
      var first := FirstIn(commits, c).value;
      ScoresOf(commits, first.botId, c) != [] && ScoresOf(commits, first.botId, c)[0] == first.score
  {
    if FirstIn(Init(commits), c).Some? {
      PioneerRanFirst(Init(commits), c);
    } else {
      NoRunNoScore(Init(commits), Last(commits).botId, c);
    }
  }

  lemma {:induction false} NoRunNoScore(commits: seq<Snapshot>, b: BotId, c: Category)
    requires FirstIn(commits, c).None?
    ensures ScoresOf(commits, b, c) == []
  {
    if commits != [] {
      NoRunNoScore(Init(commits), b, c);
    }
  }

  predicate FlaggedPioneer(db: Db, b: BotId, c: Category) {
    (b, c) in db.classes && db.classes[(b, c)].isPioneer
  }

  /** A benchmarked category flags exactly one bot, the one whose score is the baseline. */
  lemma ExactlyOnePioneer(commits: seq<Snapshot>, c: Category, b: BotId)
    requires c in Replay(commits).benchmarks
    ensures FlaggedPioneer(Replay(commits), b, c) <==> b == Replay(commits).benchmarks[c].pioneerBot
  {
    hide Replay, StateAfter;
    BenchmarkIsProjection(commits, c);
    ClassRowIsProjection(commits, b, c);
    PioneerRanFirst(commits, c);
    InputsFollowScores(commits, b, c);
  }

  lemma PromotionNeedsMaturity(h: seq<VerdictInput>, i: nat)
    requires i < |h| && TransitionAt(h, i).Promotion?
    ensures h[i].benchmarkMature
  {
    hide StateAfter;
  }

  /** Nobody is promoted in a category before its third committed run. */
  lemma NoPromotionBeforeThirdRun(commits: seq<Snapshot>, k: nat)
    requires k < |commits| && TransitionOf(commits, k).Promotion?
    ensures RunsIn(commits[..k + 1], commits[k].category) >= 3
  {
    hide StateAfter, ComputeClassTransition, Replay;
    TransitionIsProjection(commits, k);
    var inputs := InputsOf(commits[..k + 1], commits[k].botId, commits[k].category);
    PromotionNeedsMaturity(inputs, |inputs| - 1);
  }

  /** The first run of a pioneer counts as below benchmark: it only equals its own baseline. */
  lemma PioneerStartsBelow(commits: seq<Snapshot>, c: Category)
    requires FirstIn(commits, c).Some?
    ensures
      var inputs := InputsOf(commits, FirstIn(commits, c).value.botId, c);
      inputs != [] && !inputs[0].isAboveBenchmark
  {
    PioneerRanFirst(commits, c);
    InputsFollowScores(commits, FirstIn(commits, c).value.botId, c);
  }

  lemma {:induction false} AboveRunsBounds(h: seq<VerdictInput>, i: nat, j: nat)
    requires i < j < |h|
    requires !h[i].isAboveBenchmark && !h[j].isAboveBenchmark
    ensures AboveRuns(h) <= |h| - 2
  {
    if j == |h| - 1 {
      AboveRunsBelow(Init(h), i);
    } else {
      AboveRunsBounds(Init(h), i, j);
    }
  }

  lemma {:induction false} AboveRunsBelow(h: seq<VerdictInput>, i: nat)
    requires i < |h| && !h[i].isAboveBenchmark
    ensures AboveRuns(h) <= |h| - 1
  {
    if i == |h| - 1 {
      AboveRunsAtMost(Init(h));
    } else {
      AboveRunsBelow(Init(h), i);
    }
  }

  lemma {:induction false} AboveRunsAtMost(h: seq<VerdictInput>)
    ensures AboveRuns(h) <= |h|
  {
    if h != [] {
      AboveRunsAtMost(Init(h));
    }
  }

  /**
   * A pioneer reaches Artisan only with at least six runs, every one after the
   * first scoring strictly above the first.
   */
  lemma PioneerGraduation(commits: seq<Snapshot>, k: nat)
    requires k < |commits| && TransitionOf(commits, k) == GRADUATION
    requires FirstIn(commits[..k + 1], commits[k].category).Some?
    requires FirstIn(commits[..k + 1], commits[k].category).value.botId == commits[k].botId
    ensures
      var scores := ScoresOf(commits[..k + 1], commits[k].botId, commits[k].category);
      && |scores| >= 6
      && forall i :: 1 <= i < |scores| ==> scores[i] > scores[0]
  {
    hide StateAfter, ComputeClassTransition, Replay, TransitionOf;
    var now, b, c := commits[..k + 1], commits[k].botId, commits[k].category;
    var inputs := InputsOf(now, b, c);
    TransitionIsProjection(commits, k);
    GraduationRecord(inputs, |inputs| - 1);
    assert inputs[..|inputs|] == inputs;
    PioneerStartsBelow(now, c);
    PioneerRanFirst(now, c);
    InputsFollowScores(now, b, c);
    AboveRunsBelow(inputs, 0);
    forall i | 1 <= i < |inputs|
      ensures inputs[i].isAboveBenchmark
    {
      if !inputs[i].isAboveBenchmark {
        AboveRunsBounds(inputs, 0, i);
      }
    }
  }
}
