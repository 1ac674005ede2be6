/**
 * The council vote: the outputs of the judges that answered are averaged with
 * renormalised weights and rounded to a verdict; and the running mean of skill
 * effectiveness that is part of the judges' context. Numbers are exact reals.
 */
module Council {
  import opened Prelude
  import opened ClassMachine

  // ----- Verdict values -----------------------------------------------------

  function Value(v: VerdictType): nat {
    match v
    case Promote => 4
    case Maintain => 3
    case Monitor => 2
    case Demote => 1
    case Retire => 0
  }

  function FromValue(n: int): VerdictType {
    if n == 0 then Retire
    else if n == 1 then Demote
    else if n == 2 then Monitor
    else if n == 3 then Maintain
    else if n == 4 then Promote
    else Monitor
  }

  /** Math.round: the nearest integer, halves upward. */
  function Round(x: real): int {
    (x + 0.5).Floor
  }

  function ToVerdict(mean: real): VerdictType {
    FromValue(Max(0, Min(4, Round(mean))))
  }

  function Max(a: int, b: int): int {
    if a > b then a else b
  }

  // ----- Weighted means -------------------------------------------------------

  datatype Ballot = Ballot(weight: real, verdict: VerdictType, confidence: real)

  function VerdictOf(b: Ballot): real {
    Value(b.verdict) as real
  }

  function ConfidenceOf(b: Ballot): real {
    b.confidence
  }

  function TotalWeight(ballots: seq<Ballot>): real {
    if ballots == [] then 0.0 else TotalWeight(ballots[..|ballots| - 1]) + ballots[|ballots| - 1].weight
  }

  function Times(x: real, y: real): real {
    x * y
  }

  /** The sum of f weighted by weight / total. */
  function Mean(ballots: seq<Ballot>, f: Ballot -> real, total: real): real
    requires total != 0.0
  {
    if ballots == [] then 0.0
    else
      var b := ballots[|ballots| - 1];
      Mean(ballots[..|ballots| - 1], f, total) + Times(f(b), b.weight / total)
  }

  predicate Positive(ballots: seq<Ballot>) {
    forall i :: 0 <= i < |ballots| ==> ballots[i].weight > 0.0
  }

  lemma {:induction false} TotalIsPositive(ballots: seq<Ballot>)
    requires Positive(ballots)
    ensures TotalWeight(ballots) >= 0.0
    ensures ballots != [] ==> TotalWeight(ballots) > 0.0
  {
    if ballots != [] {
      TotalIsPositive(ballots[..|ballots| - 1]);
    }
  }

  lemma ShareStep(part: real, weight: real, total: real)
    requires total > 0.0
    ensures (part + weight) / total == part / total + weight / total
  {
  }

  lemma ShareIsPositive(weight: real, total: real)
    requires total > 0.0 && weight > 0.0
    ensures weight / total > 0.0
  {
  }

  lemma TimesMonotone(x: real, y: real, share: real)
    requires x <= y && share >= 0.0
    ensures Times(x, share) <= Times(y, share)
  {
    assert (y - x) * share >= 0.0;
  }

  lemma TimesDistributes(x: real, a: real, b: real)
    ensures Times(x, a + b) == Times(x, a) + Times(x, b)
  {
  }

  /** A partial mean lies between the bounds scaled by the share of weight used so far. */
  lemma {:induction false} MeanWithin(ballots: seq<Ballot>, f: Ballot -> real, total: real, lo: real, hi: real)
    requires total > 0.0 && Positive(ballots)
    requires forall i :: 0 <= i < |ballots| ==> lo <= f(ballots[i]) <= hi
    ensures Times(lo, TotalWeight(ballots) / total) <= Mean(ballots, f, total)
                                                    <= Times(hi, TotalWeight(ballots) / total)
  {
    if ballots == [] {
      assert 0.0 / total == 0.0;
      assert Times(lo, 0.0) == 0.0 && Times(hi, 0.0) == 0.0;
    } else {
      hide Times;
      var init, b := ballots[..|ballots| - 1], ballots[|ballots| - 1];
      MeanWithin(init, f, total, lo, hi);
      ShareStep(TotalWeight(init), b.weight, total);
      ShareIsPositive(b.weight, total);
      TimesDistributes(lo, TotalWeight(init) / total, b.weight / total);
      TimesDistributes(hi, TotalWeight(init) / total, b.weight / total);
      TimesMonotone(lo, f(b), b.weight / total);
      TimesMonotone(f(b), hi, b.weight / total);
    }
  }

  lemma WholeShare(x: real, total: real)
    requires total > 0.0
    ensures Times(x, total / total) == x
  {
  }

  lemma MeanBetween(ballots: seq<Ballot>, f: Ballot -> real, lo: real, hi: real)
    requires ballots != [] && Positive(ballots) && TotalWeight(ballots) > 0.0
    requires forall i :: 0 <= i < |ballots| ==> lo <= f(ballots[i]) <= hi
    ensures lo <= Mean(ballots, f, TotalWeight(ballots)) <= hi
  {
    hide Times;
    var total := TotalWeight(ballots);
    MeanWithin(ballots, f, total, lo, hi);
    WholeShare(lo, total);
    WholeShare(hi, total);
  }

  ghost predicate SameWeights(a: seq<Ballot>, b: seq<Ballot>) {
    |a| == |b| && forall i :: 0 <= i < |a| ==> a[i].weight == b[i].weight
  }

  lemma {:induction false} MeanMonotone(a: seq<Ballot>, b: seq<Ballot>, f: Ballot -> real, total: real)
    requires total > 0.0 && Positive(a) && SameWeights(a, b)
    requires forall i :: 0 <= i < |a| ==> f(a[i]) <= f(b[i])
    ensures Mean(a, f, total) <= Mean(b, f, total)
    ensures TotalWeight(a) == TotalWeight(b)
  {
    hide Times;
    if a != [] {
      var n := |a| - 1;
      MeanMonotone(a[..n], b[..n], f, total);
      ShareIsPositive(a[n].weight, total);
      TimesMonotone(f(a[n]), f(b[n]), a[n].weight / total);
    }
  }

  // ----- The vote -------------------------------------------------------------

  datatype Opinion = Opinion(verdict: VerdictType, confidence: real)

  /** A judge that failed has no opinion. */
  datatype Judge = Judge(weight: real, opinion: Option<Opinion>)

  datatype Verdict = Verdict(
    verdictType: VerdictType,
    confidence: real,
    requiresHumanConfirmation: bool,
    hasUnresolvedDevilsAdvocate: bool)

  /** The ballots of the judges that answered. */
  function Fulfilled(judges: seq<Judge>): seq<Ballot> {
    if judges == [] then []
    else
      var j := judges[|judges| - 1];
      Fulfilled(judges[..|judges| - 1])
      + (match j.opinion case None => [] case Some(o) => [Ballot(j.weight, o.verdict, o.confidence)])
  }

  predicate ValidJudges(judges: seq<Judge>) {
    forall i :: 0 <= i < |judges| ==> judges[i].weight > 0.0
  }

  lemma {:induction false} FulfilledIsPositive(judges: seq<Judge>)
    requires ValidJudges(judges)
    ensures Positive(Fulfilled(judges))
  {
    if judges != [] {
      FulfilledIsPositive(judges[..|judges| - 1]);
    }
  }

  /** Verdict type and confidence of the surviving judges; none when all failed. */
  function Vote(judges: seq<Judge>): (r: Option<(VerdictType, real)>) {
    var ballots := Fulfilled(judges);
    var total := TotalWeight(ballots);
    if ballots == [] || total == 0.0 then None
    else Some((ToVerdict(Mean(ballots, VerdictOf, total)), Mean(ballots, ConfidenceOf, total)))
  }

  lemma RoundBetween(x: real, lo: nat, hi: nat)
    requires lo as real <= x <= hi as real && hi <= 4
    ensures lo <= Round(x) <= hi
    ensures Value(ToVerdict(x)) == Round(x)
  {
  }

  lemma RoundMonotone(x: real, y: real)
    requires x <= y
    ensures Round(x) <= Round(y)
    ensures Value(ToVerdict(x)) <= Value(ToVerdict(y))
  {
  }

  /** The verdict and the confidence lie between the extremes of the judges that answered. */
  lemma VoteBetween(judges: seq<Judge>, lo: nat, hi: nat, least: real, most: real)
    requires ValidJudges(judges) && hi <= 4
    requires forall b :: b in Fulfilled(judges) ==> lo <= Value(b.verdict) <= hi && least <= b.confidence <= most
    ensures Fulfilled(judges) != [] ==>
              && Vote(judges).Some?
              && lo <= Value(Vote(judges).value.0) <= hi
              && least <= Vote(judges).value.1 <= most
  {
    hide Mean, TotalWeight, ToVerdict, Round;
    var ballots := Fulfilled(judges);
    if ballots != [] {
      FulfilledIsPositive(judges);
      TotalIsPositive(ballots);
      MeanBetween(ballots, VerdictOf, lo as real, hi as real);
      MeanBetween(ballots, ConfidenceOf, least, most);
      RoundBetween(Mean(ballots, VerdictOf, TotalWeight(ballots)), lo, hi);
    }
  }

  /** Same judges answered, and each is at least as favourable in b. */
  ghost predicate AtLeastAsFavourable(b: seq<Judge>, a: seq<Judge>) {
    && |a| == |b|
    && forall i :: 0 <= i < |a| ==>
         && a[i].weight == b[i].weight
         && a[i].opinion.Some? == b[i].opinion.Some?
         && (a[i].opinion.Some? ==>
               && Value(a[i].opinion.value.verdict) <= Value(b[i].opinion.value.verdict)
               && a[i].opinion.value.confidence <= b[i].opinion.value.confidence)
  }

  lemma {:induction false} FulfilledMonotone(a: seq<Judge>, b: seq<Judge>)
    requires AtLeastAsFavourable(b, a)
    ensures SameWeights(Fulfilled(a), Fulfilled(b))
    ensures forall i :: 0 <= i < |Fulfilled(a)| ==>
              && VerdictOf(Fulfilled(a)[i]) <= VerdictOf(Fulfilled(b)[i])
              && ConfidenceOf(Fulfilled(a)[i]) <= ConfidenceOf(Fulfilled(b)[i])
  {
    if a != [] {
      FulfilledMonotone(a[..|a| - 1], b[..|b| - 1]);
      assert a[|a| - 1].opinion.Some? == b[|b| - 1].opinion.Some?;
    }
  }

  /** No judge can lower the outcome by being more favourable. */
  lemma VoteMonotone(a: seq<Judge>, b: seq<Judge>)
    requires ValidJudges(a) && AtLeastAsFavourable(b, a) && Vote(a).Some?
    ensures Vote(b).Some?
    ensures Value(Vote(a).value.0) <= Value(Vote(b).value.0)
    ensures Vote(a).value.1 <= Vote(b).value.1
  {
    hide Mean, TotalWeight, ToVerdict, Round, SameWeights;
    FulfilledMonotone(a, b);
    FulfilledIsPositive(a);
    TotalIsPositive(Fulfilled(a));
    SameLength(Fulfilled(a), Fulfilled(b));
    var total := TotalWeight(Fulfilled(a));
    MeanMonotone(Fulfilled(a), Fulfilled(b), VerdictOf, total);
    MeanMonotone(Fulfilled(a), Fulfilled(b), ConfidenceOf, total);
    RoundMonotone(Mean(Fulfilled(a), VerdictOf, total), Mean(Fulfilled(b), VerdictOf, total));
  }

  lemma SameLength(a: seq<Ballot>, b: seq<Ballot>)
    requires SameWeights(a, b)
    ensures |a| == |b|
  {
  }

  /** Judges that differ at most in the weights of those that failed. */
  ghost predicate SameAnswers(a: seq<Judge>, b: seq<Judge>) {
    |a| == |b| && forall i :: 0 <= i < |a| ==> a[i] == b[i] || (a[i].opinion.None? && b[i].opinion.None?)
  }

  /** What an absent judge would have weighed is irrelevant. */
  lemma {:induction false} AbsentWeightsDoNotMatter(a: seq<Judge>, b: seq<Judge>)
    requires SameAnswers(a, b)
    ensures Fulfilled(a) == Fulfilled(b) && Vote(a) == Vote(b)
  {
    if a != [] {
      AbsentWeightsDoNotMatter(a[..|a| - 1], b[..|b| - 1]);
      assert a[|a| - 1] == b[|b| - 1] || (a[|a| - 1].opinion.None? && b[|b| - 1].opinion.None?);
    }
  }

  // ----- The two councils -------------------------------------------------------

  function Panel(perf: Option<Opinion>, soul: Option<Opinion>, devil: Option<Opinion>): seq<Judge> {
    [Judge(0.5, perf), Judge(0.3, soul), Judge(0.2, devil)]
  }

  const ALL_FAILED := Verdict(Monitor, 0.0, true, false)

  /** The vote with partial failure; Promote and Retire need a human. */
  method ComputeWeightedVerdict(perf: Option<Opinion>, soul: Option<Opinion>, devil: Option<Opinion>)
    returns (r: Verdict)
    ensures
      match Vote(Panel(perf, soul, devil))
      case None => r == Verdict(Monitor, 0.0, true, false) && perf.None? && soul.None? && devil.None?
      case Some((verdict, confidence)) =>
        && r.verdictType == verdict && r.confidence == confidence
        && r.requiresHumanConfirmation == (verdict == Promote || verdict == Retire)
        && r.hasUnresolvedDevilsAdvocate == (devil.Some? && devil.value.verdict != verdict)
  {
    var judges := Panel(perf, soul, devil);
    var ballots := Fulfilled(judges);
    PanelAnswers(perf, soul, devil);
    if ballots == [] {
      return ALL_FAILED;
    }
    FulfilledIsPositive(judges);
    TotalIsPositive(ballots);
    hide Fulfilled, ToVerdict, TotalWeight;
    var total := TotalWeight(ballots);
    var verdictValue, confidence := 0.0, 0.0;
    var i := 0;
    while i < |ballots|
      invariant 0 <= i <= |ballots|
      invariant verdictValue == Mean(ballots[..i], VerdictOf, total)
      invariant confidence == Mean(ballots[..i], ConfidenceOf, total)
    {
      assert ballots[..i + 1][..i] == ballots[..i];
      var share := ballots[i].weight / total;
      verdictValue := verdictValue + Times(VerdictOf(ballots[i]), share);
      confidence := confidence + Times(ConfidenceOf(ballots[i]), share);
      i := i + 1;
    }
    assert ballots[..i] == ballots;
    var verdict := ToVerdict(verdictValue);
    r := Verdict(verdict, confidence, verdict == Promote || verdict == Retire,
                 devil.Some? && devil.value.verdict != verdict);
  }

  lemma PanelAnswers(perf: Option<Opinion>, soul: Option<Opinion>, devil: Option<Opinion>)
    ensures Fulfilled(Panel(perf, soul, devil)) == [] <==> perf.None? && soul.None? && devil.None?
  {
    var judges := Panel(perf, soul, devil);
    NobodyAnswered(judges);
    assert judges[0].opinion == perf && judges[1].opinion == soul && judges[2].opinion == devil;
    hide Fulfilled;
  }

  lemma {:induction false} NobodyAnswered(judges: seq<Judge>)
    ensures Fulfilled(judges) == [] <==> forall i :: 0 <= i < |judges| ==> judges[i].opinion.None?
  {
    if judges != [] {
      NobodyAnswered(judges[..|judges| - 1]);
    }
  }

  /** The five values, and the limits between the verdicts: halves go to the more favourable one. */
  lemma VerdictScale(mean: real)
    ensures Value(Promote) == 4 && Value(Maintain) == 3 && Value(Monitor) == 2
    ensures Value(Demote) == 1 && Value(Retire) == 0
    ensures ToVerdict(mean) == Promote <==> 3.5 <= mean
    ensures ToVerdict(mean) == Maintain <==> 2.5 <= mean < 3.5
    ensures ToVerdict(mean) == Monitor <==> 1.5 <= mean < 2.5
    ensures ToVerdict(mean) == Demote <==> 0.5 <= mean < 1.5
    ensures ToVerdict(mean) == Retire <==> mean < 0.5
  {
  }

  function WeightedSum(ballots: seq<Ballot>, f: Ballot -> real): real {
    if ballots == [] then 0.0
    else WeightedSum(ballots[..|ballots| - 1], f) + Times(f(ballots[|ballots| - 1]), ballots[|ballots| - 1].weight)
  }

  lemma ShareTimesTotal(x: real, weight: real, total: real)
    requires total != 0.0
    ensures Times(x, weight / total) * total == Times(x, weight)
  {
    assert weight / total * total == weight;
  }

  lemma {:induction false} MeanTimesTotal(ballots: seq<Ballot>, f: Ballot -> real, total: real)
    requires total != 0.0
    ensures Times(Mean(ballots, f, total), total) == WeightedSum(ballots, f)
  {
    if ballots != [] {
      var b := ballots[|ballots| - 1];
      MeanTimesTotal(ballots[..|ballots| - 1], f, total);
      ShareTimesTotal(f(b), b.weight, total);
    }
  }

  /** What a judge adds to the weight, and to the weighted sum of f. */
  function Weighed(j: Judge): real {
    if j.opinion.None? then 0.0 else j.weight
  }

  function Added(j: Judge, f: Ballot -> real): real {
    match j.opinion
    case None => 0.0
    case Some(o) => Times(f(Ballot(j.weight, o.verdict, o.confidence)), j.weight)
  }

  lemma OneMoreJudge(judges: seq<Judge>, j: Judge, f: Ballot -> real)
    ensures TotalWeight(Fulfilled(judges + [j])) == TotalWeight(Fulfilled(judges)) + Weighed(j)
    ensures WeightedSum(Fulfilled(judges + [j]), f) == WeightedSum(Fulfilled(judges), f) + Added(j, f)
  {
    hide Times;
    var before, after := Fulfilled(judges), Fulfilled(judges + [j]);
    assert (judges + [j])[..|judges|] == judges;
    if j.opinion.Some? {
      assert after[..|after| - 1] == before;
    } else {
      assert after == before;
    }
  }

  lemma ThreeJudges(a: Judge, b: Judge, c: Judge, f: Ballot -> real)
    ensures TotalWeight(Fulfilled([a, b, c])) == Weighed(a) + Weighed(b) + Weighed(c)
    ensures WeightedSum(Fulfilled([a, b, c]), f) == Added(a, f) + Added(b, f) + Added(c, f)
  {
    assert Fulfilled([]) == [] && TotalWeight([]) == 0.0 && WeightedSum([], f) == 0.0;
    hide Fulfilled, TotalWeight, WeightedSum, Weighed, Added;
    OneMoreJudge([], a, f);
    OneMoreJudge([a], b, f);
    OneMoreJudge([a, b], c, f);
    assert [] + [a] == [a] && [a] + [b] == [a, b] && [a, b] + [c] == [a, b, c];
  }

  /** What an opinion contributes; a missing one contributes nothing. */
  function Counted(o: Option<Opinion>, tenths: nat): int {
    if o.None? then 0 else tenths
  }

  function Graded(o: Option<Opinion>, tenths: nat): int {
    if o.None? then 0 else tenths * Value(o.value.verdict)
  }

  function Believed(o: Option<Opinion>, tenths: real): real {
    if o.None? then 0.0 else tenths * o.value.confidence
  }

  lemma PanelSums(perf: Option<Opinion>, soul: Option<Opinion>, devil: Option<Opinion>)
    ensures
      var ballots := Fulfilled(Panel(perf, soul, devil));
      && 10.0 * TotalWeight(ballots) == (Counted(perf, 5) + Counted(soul, 3) + Counted(devil, 2)) as real
      && 10.0 * WeightedSum(ballots, VerdictOf) == (Graded(perf, 5) + Graded(soul, 3) + Graded(devil, 2)) as real
      && 10.0 * WeightedSum(ballots, ConfidenceOf)
         == Believed(perf, 5.0) + Believed(soul, 3.0) + Believed(devil, 2.0)
  {
    hide Fulfilled, TotalWeight, WeightedSum, Value;
    ThreeJudges(Judge(0.5, perf), Judge(0.3, soul), Judge(0.2, devil), VerdictOf);
    ThreeJudges(Judge(0.5, perf), Judge(0.3, soul), Judge(0.2, devil), ConfidenceOf);
  }

  lemma AtLeastTimes(mean: real, weight: real, sum: real, limit: real)
    requires weight > 0.0 && Times(mean, weight) == sum
    ensures mean >= limit <==> sum >= limit * weight
  {
    var gap := mean - limit;
    assert gap * weight == sum - limit * weight;
    if gap < 0.0 {
      assert gap * weight < 0.0;
    } else {
      assert gap * weight >= 0.0;
    }
  }

  /**
   * The outcome of any panel, whichever judges failed: weights 5, 3 and 2 in ten, the
   * limits of the verdicts halfway between their values, and the mean confidence.
   */
  lemma PanelOutcome(perf: Option<Opinion>, soul: Option<Opinion>, devil: Option<Opinion>)
    ensures
      var weight := Counted(perf, 5) + Counted(soul, 3) + Counted(devil, 2);
      var sum := Graded(perf, 5) + Graded(soul, 3) + Graded(devil, 2);
      match Vote(Panel(perf, soul, devil))
      case None => weight == 0
      case Some((verdict, confidence)) =>
        && (verdict == Promote <==> 7 * weight <= 2 * sum)
        && (verdict == Maintain <==> 5 * weight <= 2 * sum < 7 * weight)
        && (verdict == Monitor <==> 3 * weight <= 2 * sum < 5 * weight)
        && (verdict == Demote <==> weight <= 2 * sum < 3 * weight)
        && (verdict == Retire <==> 2 * sum < weight)
        && Times(confidence, weight as real) == Believed(perf, 5.0) + Believed(soul, 3.0) + Believed(devil, 2.0)
  {
    hide Fulfilled, TotalWeight, WeightedSum, Mean, ToVerdict, Value, Believed, Graded, Counted;
    var ballots := Fulfilled(Panel(perf, soul, devil));
    var total := TotalWeight(ballots);
    PanelSums(perf, soul, devil);
    PanelWeight(perf, soul, devil);
    if ballots != [] && total != 0.0 {
      var mean, confidence := Mean(ballots, VerdictOf, total), Mean(ballots, ConfidenceOf, total);
      var sum := WeightedSum(ballots, VerdictOf);
      MeanTimesTotal(ballots, VerdictOf, total);
      MeanTimesTotal(ballots, ConfidenceOf, total);
      VerdictScale(mean);
      TenTimes(confidence, total);
      hide Times;
      AtLeastTimes(mean, total, sum, 3.5);
      AtLeastTimes(mean, total, sum, 2.5);
      AtLeastTimes(mean, total, sum, 1.5);
      AtLeastTimes(mean, total, sum, 0.5);
    }
  }

  lemma TenTimes(x: real, total: real)
    ensures Times(x, 10.0 * total) == 10.0 * Times(x, total)
  {
  }

  lemma PanelWeight(perf: Option<Opinion>, soul: Option<Opinion>, devil: Option<Opinion>)
    ensures Counted(perf, 5) + Counted(soul, 3) + Counted(devil, 2) >= 0
    ensures Counted(perf, 5) + Counted(soul, 3) + Counted(devil, 2) == 0
            <==> Fulfilled(Panel(perf, soul, devil)) == []
  {
    PanelAnswers(perf, soul, devil);
  }

  /** The fixed-weight vote of three judges that all answered. */
  function AggregateVerdicts(perf: Opinion, soul: Opinion, devil: Opinion, strongUnresolvedArgument: bool): Verdict {
    Verdict(
      ToVerdict(Times(Value(perf.verdict) as real, 0.5) + Times(Value(soul.verdict) as real, 0.35)
                + Times(Value(devil.verdict) as real, 0.15)),
      Times(perf.confidence, 0.5) + Times(soul.confidence, 0.35) + Times(devil.confidence, 0.15),
      strongUnresolvedArgument,
      strongUnresolvedArgument)
  }

  function FixedPanel(perf: Opinion, soul: Opinion, devil: Opinion): seq<Judge> {
    [Judge(0.5, Some(perf)), Judge(0.35, Some(soul)), Judge(0.15, Some(devil))]
  }

  /** It is the same vote, so every bound above applies to it. */
  lemma AggregateIsVote(perf: Opinion, soul: Opinion, devil: Opinion, strong: bool)
    ensures
      var r := AggregateVerdicts(perf, soul, devil, strong);
      Vote(FixedPanel(perf, soul, devil)) == Some((r.verdictType, r.confidence))
  {
    hide ToVerdict, Times;
    var judges := FixedPanel(perf, soul, devil);
    var b0 := Ballot(0.5, perf.verdict, perf.confidence);
    var b1 := Ballot(0.35, soul.verdict, soul.confidence);
    var b2 := Ballot(0.15, devil.verdict, devil.confidence);
    assert judges[..2][..1] == judges[..1] && judges[..1][..0] == [];
    assert Fulfilled(judges[..1]) == [b0];
    assert Fulfilled(judges[..2]) == [b0, b1];
    assert Fulfilled(judges) == [b0, b1, b2];
    ThreeBallots(b0, b1, b2, VerdictOf);
    ThreeBallots(b0, b1, b2, ConfidenceOf);
  }

  /** Its outcome in twentieths: weights 10, 7 and 3. */
  lemma AggregateOutcome(perf: Opinion, soul: Opinion, devil: Opinion, strong: bool)
    ensures
      var r := AggregateVerdicts(perf, soul, devil, strong);
      var sum := 10 * Value(perf.verdict) + 7 * Value(soul.verdict) + 3 * Value(devil.verdict);
      && (r.verdictType == Promote <==> 70 <= sum)
      && (r.verdictType == Maintain <==> 50 <= sum < 70)
      && (r.verdictType == Monitor <==> 30 <= sum < 50)
      && (r.verdictType == Demote <==> 10 <= sum < 30)
      && (r.verdictType == Retire <==> sum < 10)
      && 20.0 * r.confidence == 10.0 * perf.confidence + 7.0 * soul.confidence + 3.0 * devil.confidence
      && r.requiresHumanConfirmation == strong && r.hasUnresolvedDevilsAdvocate == strong
  {
    hide Value, ToVerdict;
    VerdictScale(Times(Value(perf.verdict) as real, 0.5) + Times(Value(soul.verdict) as real, 0.35)
                 + Times(Value(devil.verdict) as real, 0.15));
  }

  lemma ThreeBallots(a: Ballot, b: Ballot, c: Ballot, f: Ballot -> real)
    requires a.weight + b.weight + c.weight == 1.0
    ensures TotalWeight([a, b, c]) == 1.0
    ensures Mean([a, b, c], f, 1.0) == Times(f(a), a.weight) + Times(f(b), b.weight) + Times(f(c), c.weight)
  {
    hide Times;
    var all := [a, b, c];
    assert all[..2] == [a, b] && [a, b][..1] == [a] && [a][..0] == [];
    assert TotalWeight([a]) == a.weight;
    assert TotalWeight([a, b]) == a.weight + b.weight;
    assert a.weight / 1.0 == a.weight && b.weight / 1.0 == b.weight && c.weight / 1.0 == c.weight;
    assert Mean([a], f, 1.0) == Times(f(a), a.weight);
    assert Mean([a, b], f, 1.0) == Times(f(a), a.weight) + Times(f(b), b.weight);
  }

  // ----- Skill effectiveness ------------------------------------------------------

  type SkillId = string

  /** A decision trace that activated a skill; a missing effectiveness counts as zero. */
  datatype Trace = NoSkill | Activated(skillId: SkillId, skillName: string, effectiveness: Option<real>)

  datatype Skill = Skill(skillName: string, timesActivated: nat, effectiveness: real)

  /** skillActivated with a non-empty id and name. */
  predicate Names(t: Trace, id: SkillId) {
    t.Activated? && t.skillId == id && id != "" && t.skillName != ""
  }

  function Activations(traces: seq<Trace>, id: SkillId): nat {
    if traces == [] then 0
    else Activations(traces[..|traces| - 1], id) + (if Names(traces[|traces| - 1], id) then 1 else 0)
  }

  function EffectSum(traces: seq<Trace>, id: SkillId): real {
    if traces == [] then 0.0
    else
      EffectSum(traces[..|traces| - 1], id)
      + (if Names(traces[|traces| - 1], id) then traces[|traces| - 1].effectiveness.GetOr(0.0) else 0.0)
  }

  function FirstName(traces: seq<Trace>, id: SkillId): string {
    if traces == [] then ""
    else
      var before := FirstName(traces[..|traces| - 1], id);
      if before != "" || !Names(traces[|traces| - 1], id) then before else traces[|traces| - 1].skillName
  }

  /** What the map must hold for one skill: its first name, its count and the plain mean. */
  function ExpectedSkill(traces: seq<Trace>, id: SkillId): Option<Skill> {
    var n := Activations(traces, id);
    if n == 0 then None else Some(Skill(FirstName(traces, id), n, EffectSum(traces, id) / n as real))
  }

  /** An activation counts once; a missing effectiveness adds nothing, a missing name or id is no activation. */
  lemma OneMoreTrace(traces: seq<Trace>, id: SkillId, skillName: string, effectiveness: Option<real>, other: SkillId)
    ensures
      var after := traces + [Activated(id, skillName, effectiveness)];
      if id == other != "" && skillName != "" then
        && Activations(after, other) == Activations(traces, other) + 1
        && EffectSum(after, other)
           == EffectSum(traces, other) + (if effectiveness.Some? then effectiveness.value else 0.0)
      else
        Activations(after, other) == Activations(traces, other) && EffectSum(after, other) == EffectSum(traces, other)
  {
    assert (traces + [Activated(id, skillName, effectiveness)])[..|traces|] == traces;
  }

  /** The new mean after the activation number `times`. */
  function UpdatedMean(mean: real, times: nat, x: real): real
    requires times > 0
  {
    (mean * (times - 1) as real + x) / times as real
  }

  lemma OneActivation(x: real, n: nat)
    requires n == 1
    ensures x / n as real == x
  {
  }

  lemma RunningMean(sum: real, n: nat, x: real)
    requires n > 0
    ensures UpdatedMean(sum / n as real, n + 1, x) == (sum + x) / (n + 1) as real
  {
    assert sum / n as real * n as real == sum;
  }

  lemma {:induction false} NameIffActivated(traces: seq<Trace>, id: SkillId)
    ensures FirstName(traces, id) == "" <==> Activations(traces, id) == 0
    ensures Activations(traces, id) == 0 ==> EffectSum(traces, id) == 0.0
  {
    if traces != [] {
      NameIffActivated(traces[..|traces| - 1], id);
    }
  }

  /** The in-place update of one map entry by a trace that names it. */
  function NextSkill(before: Option<Skill>, skillName: string, x: real): Skill {
    match before
    case None => Skill(skillName, 1, x)
    case Some(s) =>
      Skill(s.skillName, s.timesActivated + 1, UpdatedMean(s.effectiveness, s.timesActivated + 1, x))
  }

  /** Updating the entry in place keeps it equal to first name, count and plain mean. */
  lemma SkillStep(traces: seq<Trace>, id: SkillId)
    requires traces != []
    ensures
      var before, t := ExpectedSkill(traces[..|traces| - 1], id), traces[|traces| - 1];
      ExpectedSkill(traces, id) ==
      if Names(t, id) then Some(NextSkill(before, t.skillName, t.effectiveness.GetOr(0.0))) else before
  {
    var init, t := traces[..|traces| - 1], traces[|traces| - 1];
    hide UpdatedMean;
    NameIffActivated(init, id);
    if Names(t, id) {
      var n, sum, x := Activations(init, id), EffectSum(init, id), t.effectiveness.GetOr(0.0);
      if n == 0 {
        assert EffectSum(traces, id) == x;
        assert Activations(traces, id) == 1;
        OneActivation(x, Activations(traces, id));
      } else {
        RunningMean(sum, n, x);
        assert EffectSum(traces, id) == sum + x;
      }
    }
  }

  /** The running mean kept in place is sum / count for every skill. */
  method SkillActivations(traces: seq<Trace>) returns (skills: map<SkillId, Skill>)
    ensures forall id: SkillId :: Lookup(skills, id) == ExpectedSkill(traces, id)
  {
    hide ExpectedSkill, UpdatedMean;
    skills := map[];
    var i := 0;
    NothingActivated(traces[..0]);
    while i < |traces|
      invariant 0 <= i <= |traces|
      invariant forall id: SkillId :: Lookup(skills, id) == ExpectedSkill(traces[..i], id)
    {
      ghost var before := skills;
      var t := traces[i];
      if t.Activated? && t.skillId != "" && t.skillName != "" {
        var x := t.effectiveness.GetOr(0.0);
        if t.skillId in skills {
          var s := skills[t.skillId];
          var times := s.timesActivated + 1;
          skills := skills[t.skillId :=
              Skill(s.skillName, times, UpdatedMean(s.effectiveness, times, x))];
        } else {
          skills := skills[t.skillId := Skill(t.skillName, 1, x)];
        }
        assert skills == before[t.skillId := NextSkill(Lookup(before, t.skillId), t.skillName, x)];
      }
      hide NextSkill;
      forall id: SkillId
        ensures Lookup(skills, id) == ExpectedSkill(traces[..i + 1], id)
      {
        assert traces[..i + 1][..i] == traces[..i];
        SkillStep(traces[..i + 1], id);
      }
      i := i + 1;
    }
    assert traces[..i] == traces;
  }

  lemma NothingActivated(traces: seq<Trace>)
    requires traces == []
    ensures forall id: SkillId :: ExpectedSkill(traces, id) == None
  {
  }
}
