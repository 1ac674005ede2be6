/**
 * The agent class state machine: how one bot's class and counters in one task
 * category react to a council verdict, and what that implies over a whole
 * history of verdicts. The counters are never reset by a promotion or a
 * demotion, and every long-term fact below comes from that.
 */
module ClassMachine {
  datatype AgentClass = Novice | Understudy | Artisan | Retired

  datatype VerdictType = Promote | Maintain | Monitor | Demote | Retire

  datatype ClassState = ClassState(
    currentClass: AgentClass,
    aboveCount: nat,
    belowCount: nat,
    humanCount: nat,
    consecutiveBelow: nat)

  const FRESH := ClassState(Novice, 0, 0, 0, 0)

  datatype VerdictInput = VerdictInput(
    verdictType: VerdictType,
    confidence: real,
    hasHumanConfirmation: bool,
    isAboveBenchmark: bool,
    isSoulDriven: bool,
    hasUnresolvedDA: bool,
    benchmarkMature: bool)

  datatype ClassTransition =
    | Promotion(from: AgentClass, to: AgentClass)
    | Demotion(demotedFrom: AgentClass)
    | Retirement
    | NoTransition

  datatype ClassResult = ClassResult(newState: ClassState, transition: ClassTransition)

  const GRADUATION := Promotion(Understudy, Artisan)

  const NOVICE_MIN_ABOVE := 2
  const NOVICE_MIN_HUMAN := 1
  const NOVICE_MIN_CONFIDENCE := 0.65
  const UNDERSTUDY_MIN_ABOVE := 5
  const UNDERSTUDY_MAX_BELOW := 1
  const UNDERSTUDY_MIN_HUMAN := 2
  const UNDERSTUDY_MIN_CONFIDENCE := 0.80
  const DEMOTION_MIN_CONSECUTIVE := 2
  const DEMOTION_MIN_CONFIDENCE := 0.70

  /** The counters move on every verdict, whatever the class and the verdict type. */
  function UpdateCounters(s: ClassState, v: VerdictInput): ClassState {
    var counted :=
      if v.isAboveBenchmark then
        s.(aboveCount := s.aboveCount + 1, consecutiveBelow := 0)
      else
        s.(belowCount := s.belowCount + 1, consecutiveBelow := s.consecutiveBelow + 1);
    if v.hasHumanConfirmation then counted.(humanCount := counted.humanCount + 1) else counted
  }

  /** Transitions are evaluated on the updated counters. */
  function ComputeClassTransition(state: ClassState, v: VerdictInput): ClassResult {
    var s := UpdateCounters(state, v);
    if s.currentClass == Retired then
      ClassResult(s, NoTransition)
    else if v.verdictType == Retire then
      if v.isSoulDriven then ClassResult(s.(currentClass := Retired), Retirement)
      else ClassResult(s, NoTransition)
    else if v.verdictType == Demote then
      if !v.isSoulDriven then
        ClassResult(s, NoTransition)
      else if && s.consecutiveBelow >= DEMOTION_MIN_CONSECUTIVE
              && v.confidence > DEMOTION_MIN_CONFIDENCE
              && (s.currentClass == Understudy || s.currentClass == Artisan) then
        ClassResult(s.(currentClass := Novice), Demotion(s.currentClass))
      else
        ClassResult(s, NoTransition)
    else if v.verdictType == Promote && s.currentClass == Novice then
      if && s.aboveCount >= NOVICE_MIN_ABOVE
         && s.humanCount >= NOVICE_MIN_HUMAN
         && v.confidence > NOVICE_MIN_CONFIDENCE
         && !v.hasUnresolvedDA
         && v.benchmarkMature then
        ClassResult(s.(currentClass := Understudy), Promotion(Novice, Understudy))
      else
        ClassResult(s, NoTransition)
    else if v.verdictType == Promote && s.currentClass == Understudy then
      if && s.aboveCount >= UNDERSTUDY_MIN_ABOVE
         && s.belowCount <= UNDERSTUDY_MAX_BELOW
         && s.humanCount >= UNDERSTUDY_MIN_HUMAN
         && v.confidence > UNDERSTUDY_MIN_CONFIDENCE
         && v.benchmarkMature then
        ClassResult(s.(currentClass := Artisan), GRADUATION)
      else
        ClassResult(s, NoTransition)
    else
      ClassResult(s, NoTransition)
  }

  // ----- Histories ---------------------------------------------------------

  /** The state a fresh bot reaches after the verdicts of h, oldest first. */
  function StateAfter(h: seq<VerdictInput>): ClassState {
    if h == [] then FRESH
    else ComputeClassTransition(StateAfter(h[..|h| - 1]), h[|h| - 1]).newState
  }

  function TransitionAt(h: seq<VerdictInput>, i: nat): ClassTransition
    requires i < |h|
  {
    ComputeClassTransition(StateAfter(h[..i]), h[i]).transition
  }

  function AboveRuns(h: seq<VerdictInput>): nat {
    if h == [] then 0
    else AboveRuns(h[..|h| - 1]) + (if h[|h| - 1].isAboveBenchmark then 1 else 0)
  }

  function Confirmations(h: seq<VerdictInput>): nat {
    if h == [] then 0
    else Confirmations(h[..|h| - 1]) + (if h[|h| - 1].hasHumanConfirmation then 1 else 0)
  }

  /** n is the length of the longest run of below-benchmark verdicts that ends the history. */
  predicate IsTrailingBelowRun(h: seq<VerdictInput>, n: nat) {
    && n <= |h|
    && (forall k :: |h| - n <= k < |h| ==> !h[k].isAboveBenchmark)
    && (n < |h| ==> h[|h| - n - 1].isAboveBenchmark)
  }

  lemma StateAfterStep(h: seq<VerdictInput>, i: nat)
    requires i < |h|
    ensures StateAfter(h[..i + 1]) == ComputeClassTransition(StateAfter(h[..i]), h[i]).newState
  {
    assert h[..i + 1][..i] == h[..i];
  }

  /** A transition changes the class and leaves the counters as counted. */
  lemma OnlyTheClassMoves(s: ClassState, v: VerdictInput)
    ensures
      var next := ComputeClassTransition(s, v).newState;
      next == UpdateCounters(s, v).(currentClass := next.currentClass)
  {
  }

  /** No promotion, demotion or retirement ever resets a counter. */
  lemma {:induction false} CountersAreHistory(h: seq<VerdictInput>)
    ensures StateAfter(h).aboveCount == AboveRuns(h)
    ensures StateAfter(h).belowCount == |h| - AboveRuns(h)
    ensures StateAfter(h).humanCount == Confirmations(h)
    ensures IsTrailingBelowRun(h, StateAfter(h).consecutiveBelow)
    ensures StateAfter(h).consecutiveBelow <= StateAfter(h).belowCount
  {
    hide ComputeClassTransition;
    if h != [] {
      CountersAreHistory(h[..|h| - 1]);
      OnlyTheClassMoves(StateAfter(h[..|h| - 1]), h[|h| - 1]);
    }
  }

  /**
   * When each transition happens, in terms of the record of the bot rather than
   * its counters: runs above and below benchmark and human confirmations so far,
   * and for a demotion the last two runs.
   */
  lemma TransitionsByRecord(h: seq<VerdictInput>, i: nat)
    requires i < |h|
    ensures
      var t, c, v := TransitionAt(h, i), StateAfter(h[..i]).currentClass, h[i];
      var above, confirmed := AboveRuns(h[..i + 1]), Confirmations(h[..i + 1]);
      && (t == Promotion(Novice, Understudy) <==>
            && c == Novice && v.verdictType == Promote && v.confidence > 0.65
            && above >= 2 && confirmed >= 1 && !v.hasUnresolvedDA && v.benchmarkMature)
      && (t == GRADUATION <==>
            && c == Understudy && v.verdictType == Promote && v.confidence > 0.80
            && above >= 5 && i + 1 - above <= 1 && confirmed >= 2 && v.benchmarkMature)
      && (t.Demotion? <==>
            && (c == Understudy || c == Artisan) && v.verdictType == Demote && v.isSoulDriven && v.confidence > 0.70
            && i >= 1 && !h[i - 1].isAboveBenchmark && !v.isAboveBenchmark)
      && (t.Retirement? <==> c != Retired && v.verdictType == Retire && v.isSoulDriven)
  {
    StateAfterStep(h, i);
    CountersAreHistory(h[..i]);
    CountersAreHistory(h[..i + 1]);
    OnlyTheClassMoves(StateAfter(h[..i]), h[i]);
    TwoBelow(h[..i + 1], StateAfter(h[..i + 1]).consecutiveBelow);
    hide StateAfter, AboveRuns, Confirmations, IsTrailingBelowRun;
  }

  /** What a transition does to the class. */
  lemma ClassFollowsTransition(h: seq<VerdictInput>, i: nat)
    requires i < |h|
    ensures
      var before, after := StateAfter(h[..i]).currentClass, StateAfter(h[..i + 1]).currentClass;
      match TransitionAt(h, i)
      case Promotion(from, to) =>
        before == from && after == to && ((from == Novice && to == Understudy) || (from == Understudy && to == Artisan))
      case Demotion(from) => before == from && after == Novice && (from == Understudy || from == Artisan)
      case Retirement => before != Retired && after == Retired
      case NoTransition => after == before
  {
    StateAfterStep(h, i);
  }

  /**
   * The class after a verdict, given the class before it, the runs above
   * benchmark and the confirmations among so many runs, and whether the last two
   * were below.
   */
  function ClassByRecord(
    c: AgentClass, v: VerdictInput, above: nat, runs: nat, confirmed: nat, twoBelow: bool): AgentClass
  {
    if c != Retired && v.verdictType == Retire && v.isSoulDriven then Retired
    else if
      && (c == Understudy || c == Artisan) && v.verdictType == Demote && v.isSoulDriven
      && v.confidence > 0.70 && twoBelow then Novice
    else if
      && c == Novice && v.verdictType == Promote && v.confidence > 0.65
      && above >= 2 && confirmed >= 1 && !v.hasUnresolvedDA && v.benchmarkMature then Understudy
    else if
      && c == Understudy && v.verdictType == Promote && v.confidence > 0.80
      && above >= 5 && runs - above <= 1 && confirmed >= 2 && v.benchmarkMature then Artisan
    else c
  }

  /** Each class of a history follows from the class before and the record. */
  lemma ClassFollowsRecord(h: seq<VerdictInput>, i: nat)
    requires i < |h|
    ensures
      var twoBelow := i >= 1 && !h[i - 1].isAboveBenchmark && !h[i].isAboveBenchmark;
      StateAfter(h[..i + 1]).currentClass ==
      ClassByRecord(
        StateAfter(h[..i]).currentClass, h[i], AboveRuns(h[..i + 1]), i + 1, Confirmations(h[..i + 1]), twoBelow)
  {
    hide StateAfter, AboveRuns, Confirmations, ComputeClassTransition, TransitionAt;
    TransitionsByRecord(h, i);
    ClassFollowsTransition(h, i);
  }

  lemma TwoBelow(h: seq<VerdictInput>, n: nat)
    requires IsTrailingBelowRun(h, n)
    ensures n >= 2 <==> |h| >= 2 && !h[|h| - 2].isAboveBenchmark && !h[|h| - 1].isAboveBenchmark
  {
    if n == 1 && |h| > 1 { assert h[|h| - 2].isAboveBenchmark; }
  }

  // ----- Retirement --------------------------------------------------------

  lemma RetiredStep(s: ClassState, v: VerdictInput)
    requires s.currentClass == Retired
    ensures ComputeClassTransition(s, v).newState.currentClass == Retired
    ensures ComputeClassTransition(s, v).transition == NoTransition
  {
  }

  lemma {:induction false} RetiredIsAbsorbing(h: seq<VerdictInput>, i: nat, j: nat)
    requires i <= j <= |h|
    requires StateAfter(h[..i]).currentClass == Retired
    ensures StateAfter(h[..j]).currentClass == Retired
    ensures j < |h| ==> TransitionAt(h, j) == NoTransition
  {
    hide ComputeClassTransition;
    if i < j {
      RetiredIsAbsorbing(h, i, j - 1);
      StateAfterStep(h, j - 1);
      RetiredStep(StateAfter(h[..j - 1]), h[j - 1]);
    }
    if j < |h| {
      RetiredStep(StateAfter(h[..j]), h[j]);
    }
  }

  /** Demotion and retirement happen only on soul-driven verdicts. */
  lemma SetbacksAreSoulDriven(s: ClassState, v: VerdictInput)
    ensures
      var t := ComputeClassTransition(s, v).transition;
      t.Demotion? || t.Retirement? ==> v.isSoulDriven
  {
  }

  // ----- Graduation --------------------------------------------------------

  /** States from which Artisan can no longer be reached by a promotion. */
  predicate Spent(s: ClassState) {
    s.currentClass == Artisan || s.currentClass == Retired || s.belowCount > UNDERSTUDY_MAX_BELOW
  }

  lemma SpentStep(s: ClassState, v: VerdictInput)
    requires Spent(s) && s.consecutiveBelow <= s.belowCount
    ensures Spent(ComputeClassTransition(s, v).newState)
    ensures ComputeClassTransition(s, v).transition != GRADUATION
  {
    assert UpdateCounters(s, v).consecutiveBelow <= UpdateCounters(s, v).belowCount;
  }

  lemma {:induction false} SpentForever(h: seq<VerdictInput>, i: nat, j: nat)
    requires i <= j <= |h|
    requires Spent(StateAfter(h[..i]))
    ensures Spent(StateAfter(h[..j]))
    ensures j < |h| ==> TransitionAt(h, j) != GRADUATION
  {
    hide ComputeClassTransition;
    CountersAreHistory(h[..j]);
    if i < j {
      SpentForever(h, i, j - 1);
      StateAfterStep(h, j - 1);
      CountersAreHistory(h[..j - 1]);
      SpentStep(StateAfter(h[..j - 1]), h[j - 1]);
    }
    if j < |h| {
      SpentStep(StateAfter(h[..j]), h[j]);
    }
  }

  /** Graduating or being demoted spends the bot: a demotion needs two below-benchmark runs. */
  lemma GraduationOrDemotionSpends(s: ClassState, v: VerdictInput)
    requires s.consecutiveBelow <= s.belowCount
    requires
      var t := ComputeClassTransition(s, v).transition;
      t == GRADUATION || t.Demotion?
    ensures Spent(ComputeClassTransition(s, v).newState)
  {
    assert UpdateCounters(s, v).consecutiveBelow <= UpdateCounters(s, v).belowCount;
  }

  /** A bot graduates to Artisan at most once, and never after a demotion. */
  lemma ArtisanAtMostOnce(h: seq<VerdictInput>, i: nat, j: nat)
    requires i < j < |h|
    requires TransitionAt(h, i) == GRADUATION || TransitionAt(h, i).Demotion?
    ensures TransitionAt(h, j) != GRADUATION
  {
    hide ComputeClassTransition;
    CountersAreHistory(h[..i]);
    GraduationOrDemotionSpends(StateAfter(h[..i]), h[i]);
    StateAfterStep(h, i);
    SpentForever(h, i + 1, j);
  }

  /** A demotion leaves at least two below-benchmark runs on record for good. */
  lemma DemotionForcesBelow(h: seq<VerdictInput>, i: nat, j: nat)
    requires i < j <= |h|
    requires TransitionAt(h, i).Demotion?
    ensures StateAfter(h[..j]).belowCount >= 2
  {
    CountersAreHistory(h[..i]);
    StateAfterStep(h, i);
    BelowNeverShrinks(h, i + 1, j);
  }

  lemma {:induction false} BelowNeverShrinks(h: seq<VerdictInput>, i: nat, j: nat)
    requires i <= j <= |h|
    ensures StateAfter(h[..i]).belowCount <= StateAfter(h[..j]).belowCount
  {
    hide ComputeClassTransition;
    if i < j {
      BelowNeverShrinks(h, i, j - 1);
      StateAfterStep(h, j - 1);
      OnlyTheClassMoves(StateAfter(h[..j - 1]), h[j - 1]);
    }
  }

  /** What the record of a bot looks like at the moment it graduates. */
  lemma GraduationRecord(h: seq<VerdictInput>, i: nat)
    requires i < |h| && TransitionAt(h, i) == GRADUATION
    ensures AboveRuns(h[..i + 1]) >= 5 && i + 1 - AboveRuns(h[..i + 1]) <= 1
    ensures Confirmations(h[..i + 1]) >= 2
    ensures h[i].benchmarkMature && h[i].verdictType == Promote && h[i].confidence > 0.80
    ensures StateAfter(h[..i + 1]).currentClass == Artisan
  {
    StateAfterStep(h, i);
    CountersAreHistory(h[..i + 1]);
  }

  predicate GraduatesWithin(h: seq<VerdictInput>, from: nat) {
    exists k :: from <= k < |h| && TransitionAt(h, k) == GRADUATION
  }

  const IDEAL := VerdictInput(Promote, 1.0, true, true, true, false, true)

  /** Runs still missing, at most, when every further verdict is ideal. */
  function RunsMissing(s: ClassState): nat {
    (if s.currentClass == Novice then 2 else 0)
    + (if s.aboveCount < 5 then 5 - s.aboveCount else 0)
    + (if s.humanCount < 2 then 2 - s.humanCount else 0)
  }

  /** One ideal verdict graduates an unspent bot or brings it strictly closer. */
  lemma IdealStep(s: ClassState)
    requires !Spent(s)
    ensures
      var r := ComputeClassTransition(s, IDEAL);
      r.transition == GRADUATION || (!Spent(r.newState) && RunsMissing(r.newState) < RunsMissing(s))
  {
  }

  lemma {:induction false} IdealFinishes(h: seq<VerdictInput>) returns (g: seq<VerdictInput>)
    requires !Spent(StateAfter(h))
    ensures GraduatesWithin(h + g, |h|)
    decreases RunsMissing(StateAfter(h))
  {
    hide ComputeClassTransition, Spent, RunsMissing;
    var h1 := h + [IDEAL];
    assert h1[..|h|] == h;
    StateAfterStep(h1, |h|);
    assert h1[..|h| + 1] == h1;
    IdealStep(StateAfter(h));
    if TransitionAt(h1, |h|) == GRADUATION {
      g := [IDEAL];
    } else {
      var rest := IdealFinishes(h1);
      g := [IDEAL] + rest;
      assert h + g == h1 + rest;
      var k :| |h1| <= k < |h1 + rest| && TransitionAt(h1 + rest, k) == GRADUATION;
    }
  }

  ghost predicate CanStillGraduate(h: seq<VerdictInput>) {
    exists g: seq<VerdictInput> :: GraduatesWithin(h + g, |h|)
  }

  /** A bot can still become Artisan under some future exactly when it is not spent. */
  lemma CanStillGraduateIffUnspent(h: seq<VerdictInput>)
    ensures CanStillGraduate(h) <==> !Spent(StateAfter(h))
  {
    if Spent(StateAfter(h)) {
      forall g: seq<VerdictInput>
        ensures !GraduatesWithin(h + g, |h|)
      {
        assert (h + g)[..|h|] == h;
        forall k | |h| <= k < |h + g|
          ensures TransitionAt(h + g, k) != GRADUATION
        {
          SpentForever(h + g, |h|, k);
        }
      }
    } else {
      var g := IdealFinishes(h);
    }
  }
}
